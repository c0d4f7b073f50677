/** The system-prompt presets: ten built-in presets fixed in the program, followed by
    the user's own presets, which are kept in a dictionary keyed by preset id. */
module Presets {
  import opened Wrappers
  import opened Text
  import opened Seqs
  import opened Models
  import opened Dicts
  import opened Sorting

  // ---------------------------------------------------------------- built-in presets

  /** Stands in for the long system-prompt text of each built-in preset. */
  const ElidedPrompt: string := ""

  /** The built-in presets, in their listed order. */
  const BuiltinPresets: seq<PromptPreset> := [
    PromptPreset("assistant", "General Assistant",
      "A helpful, harmless, and honest AI assistant",
      ElidedPrompt, 0.7, 2048, "\U{1F916}", "general"),
    PromptPreset("coder", "Code Assistant",
      "Expert programmer helping with code",
      ElidedPrompt, 0.3, 4096, "\U{1F4BB}", "development"),
    PromptPreset("writer", "Creative Writer",
      "Creative writing and content creation",
      ElidedPrompt, 0.9, 4096, "\U{270D}\U{FE0F}", "creative"),
    PromptPreset("analyst", "Research Analyst",
      "Deep analysis and research assistance",
      ElidedPrompt, 0.5, 4096, "\U{1F52C}", "research"),
    PromptPreset("translator", "Translator",
      "Multi-language translation and localization",
      ElidedPrompt, 0.3, 2048, "\U{1F30D}", "language"),
    PromptPreset("tutor", "Learning Tutor",
      "Patient teacher for learning new concepts",
      ElidedPrompt, 0.6, 2048, "\U{1F4DA}", "education"),
    PromptPreset("debugger", "Debug Expert",
      "Specialized in finding and fixing bugs",
      ElidedPrompt, 0.2, 4096, "\U{1F41B}", "development"),
    PromptPreset("brainstorm", "Brainstorm Partner",
      "Creative ideation and brainstorming",
      ElidedPrompt, 1.0, 2048, "\U{1F4A1}", "creative"),
    PromptPreset("summarizer", "Summarizer",
      "Concise summaries of long content",
      ElidedPrompt, 0.3, 1024, "\U{1F4CB}", "productivity"),
    PromptPreset("reviewer", "Code Reviewer",
      "Thorough code review and feedback",
      ElidedPrompt, 0.3, 4096, "\U{1F440}", "development")
  ]

  /** Every custom preset id is this prefix followed by eight hex digits. */
  const CustomPrefix: string := "custom_"

  /** The first eight characters of a random UUID's hex form: what `create_preset`
      appends to the prefix. The random source itself is a parameter. */
  type HexSuffix = s: string | |s| == 8 && forall c :: c in s ==> c in "0123456789abcdef"
    witness "00000000"

  /** No built-in id has the custom prefix, so a created preset is never hidden. */
  lemma BuiltinIdsAreNotCustom()
    ensures forall i :: 0 <= i < |BuiltinPresets| ==> !StartsWith(BuiltinPresets[i].id, CustomPrefix)
  {
    forall i | 0 <= i < |BuiltinPresets| ensures !StartsWith(BuiltinPresets[i].id, CustomPrefix) {
      var id := BuiltinPresets[i].id;
      if |id| >= |CustomPrefix| {
        assert id[0] != 'c';
        assert id[..|CustomPrefix|][0] == id[0];
      }
    }
  }

  /** The built-in ids are pairwise different. */
  lemma BuiltinIdsDistinct()
    ensures forall i, j :: 0 <= i < j < |BuiltinPresets| ==> BuiltinPresets[i].id != BuiltinPresets[j].id
  {
    forall i, j | 0 <= i < j < |BuiltinPresets| ensures BuiltinPresets[i].id != BuiltinPresets[j].id {
      var a, b := BuiltinPresets[i].id, BuiltinPresets[j].id;
      assert a[0] != b[0] || a[1] != b[1] || |a| != |b|;
    }
  }

  // ---------------------------------------------------------------- custom presets

  /** The custom presets are keyed by their own id, both when loaded and when created. */
  ghost predicate Keyed(custom: Dict<string, PromptPreset>) {
    custom.Valid() && forall k :: k in custom.items ==> custom.items[k].id == k
  }

  /** The index of the first preset of `ps` with id `id`, or `|ps|`. */
  function IndexOfId(ps: seq<PromptPreset>, id: string): (i: nat)
    ensures i <= |ps|
    ensures i < |ps| ==> ps[i].id == id
    ensures forall j :: 0 <= j < i ==> ps[j].id != id
  {
    FirstIndex(ps, HasPresetId(id))
  }

  /** The scan's stopping point determines the index: nothing before it has the id, and the
      entry there (if any) does. */
  lemma IndexOfIdIs(ps: seq<PromptPreset>, id: string, i: nat)
    requires i <= |ps| && (i < |ps| ==> ps[i].id == id)
    requires forall j :: 0 <= j < i ==> ps[j].id != id
    ensures IndexOfId(ps, id) == i
  {
  }

  function HasPresetId(id: string): PromptPreset -> bool {
    (p: PromptPreset) => p.id == id
  }

  /** The first preset of `ps` with id `id`. */
  function FirstWithId(ps: seq<PromptPreset>, id: string): (r: Option<PromptPreset>)
    ensures r.Some? ==> r.value in ps && r.value.id == id
    ensures r.None? <==> forall p :: p in ps ==> p.id != id
  {
    var i := IndexOfId(ps, id);
    if i < |ps| then Some(ps[i]) else None
  }

  /** `get_all_presets`: the built-ins, then the custom presets in insertion order. */
  function AllPresets(custom: Dict<string, PromptPreset>): (all: seq<PromptPreset>)
    requires custom.Valid()
    ensures |all| == |BuiltinPresets| + |custom.keys|
    ensures forall p :: p in all <==> p in BuiltinPresets || exists k :: k in custom.items && custom.items[k] == p
  {
    var vs := custom.Values();
    assert forall p :: p in vs <==> exists k :: k in custom.items && custom.items[k] == p by {
      forall p | p in vs ensures exists k :: k in custom.items && custom.items[k] == p {
        var i :| 0 <= i < |vs| && vs[i] == p;
        assert custom.keys[i] in custom.items;
      }
      forall k | k in custom.items ensures custom.items[k] in vs {
        var i :| 0 <= i < |custom.keys| && custom.keys[i] == k;
        assert vs[i] == custom.items[k];
      }
    }
    BuiltinPresets + vs
  }

  /** `get_preset`: a built-in with the id if there is one, else the custom preset. */
  function Lookup(custom: Dict<string, PromptPreset>, id: string): (r: Option<PromptPreset>)
    requires Keyed(custom)
    ensures r.Some? ==> r.value.id == id
    ensures r.Some? <==> (exists i :: 0 <= i < |BuiltinPresets| && BuiltinPresets[i].id == id) || id in custom.items
  {
    var i := IndexOfId(BuiltinPresets, id);
    if i < |BuiltinPresets| then Some(BuiltinPresets[i]) else custom.Get(id)
  }

  /** The first of the keyed dictionary's values with id `k` is the one stored at `k`. */
  lemma {:induction false} ValuesFirstWithId(custom: Dict<string, PromptPreset>, id: string)
    requires Keyed(custom)
    ensures FirstWithId(custom.Values(), id) == custom.Get(id)
  {
    var vs := custom.Values();
    var m := IndexOfId(vs, id);
    if id in custom.items {
      var k :| 0 <= k < |custom.keys| && custom.keys[k] == id;
      assert vs[k].id == id;
      assert m <= k;
      assert custom.keys[m] in custom.items;
      assert custom.keys[m] == id;
    } else {
      forall j | 0 <= j < |vs| ensures vs[j].id != id {
        assert custom.keys[j] in custom.items;
      }
    }
  }

  lemma {:induction false} FirstWithIdAppend(a: seq<PromptPreset>, b: seq<PromptPreset>, id: string)
    ensures FirstWithId(a + b, id) == if FirstWithId(a, id).Some? then FirstWithId(a, id) else FirstWithId(b, id)
  {
    var i, j, k := IndexOfId(a, id), IndexOfId(b, id), IndexOfId(a + b, id);
    if i < |a| {
      assert (a + b)[i] == a[i];
      assert k == i;
    } else if j < |b| {
      assert (a + b)[|a| + j] == b[j];
      assert k <= |a| + j;
      assert forall x :: 0 <= x < |a| ==> (a + b)[x] == a[x];
      assert forall x :: 0 <= x < |b| ==> (a + b)[|a| + x] == b[x];
      assert k == |a| + j;
    } else {
      assert forall x :: 0 <= x < |a| ==> (a + b)[x] == a[x];
      assert forall x :: 0 <= x < |b| ==> (a + b)[|a| + x] == b[x];
    }
  }

  /** `get_preset` returns the first preset with the id in the list `get_all_presets` shows. */
  lemma GetPresetIsFirstListed(custom: Dict<string, PromptPreset>, id: string)
    requires Keyed(custom)
    ensures Lookup(custom, id) == FirstWithId(AllPresets(custom), id)
  {
    FirstWithIdAppend(BuiltinPresets, custom.Values(), id);
    ValuesFirstWithId(custom, id);
  }

  /** A custom preset can never hide a built-in one: every built-in is found under its id. */
  lemma BuiltinsShadowCustom(custom: Dict<string, PromptPreset>, i: nat)
    requires Keyed(custom) && i < |BuiltinPresets|
    ensures Lookup(custom, BuiltinPresets[i].id) == Some(BuiltinPresets[i])
  {
    BuiltinIdsDistinct();
  }

  /** After a preset with a custom id is stored, it is found under its id, and every other
      id finds what it found before. */
  lemma CreatedPresetIsFound(custom: Dict<string, PromptPreset>, p: PromptPreset, other: string)
    requires Keyed(custom) && StartsWith(p.id, CustomPrefix)
    ensures Keyed(custom.Put(p.id, p))
    ensures Lookup(custom.Put(p.id, p), p.id) == Some(p)
    ensures other != p.id ==> Lookup(custom.Put(p.id, p), other) == Lookup(custom, other)
  {
    BuiltinIdsAreNotCustom();
  }

  /** Deleting a custom preset makes its id unknown, and nothing else changes; in particular
      no built-in can be deleted. */
  lemma DeleteForgetsOnlyThatId(custom: Dict<string, PromptPreset>, id: string, other: string)
    requires Keyed(custom)
    ensures Keyed(custom.Remove(id))
    ensures other != id ==> Lookup(custom.Remove(id), other) == Lookup(custom, other)
    ensures Lookup(custom.Remove(id), id) == (if IndexOfId(BuiltinPresets, id) < |BuiltinPresets| then Lookup(custom, id) else None)
  {
  }

  /** `get_presets_by_category` on a list: the presets in that category, in order. */
  function InCategory(ps: seq<PromptPreset>, category: string): (r: seq<PromptPreset>)
    ensures IsSubsequence(r, ps)
    ensures forall p :: p in r <==> p in ps && p.category == category
  {
    if ps == [] then []
    else
      var rest := InCategory(ps[1..], category);
      if ps[0].category == category then
        SubsequenceCons(ps[0], rest, ps[1..]);
        assert ps == [ps[0]] + ps[1..];
        [ps[0]] + rest
      else
        SubsequenceSkip(rest, ps);
        assert ps == [ps[0]] + ps[1..];
        rest
  }

  /** `get_categories` on a list: each category once, in increasing order. */
  function CategoriesOf(ps: seq<PromptPreset>): (r: seq<string>)
    ensures StrictlySorted(r)
    ensures forall c :: c in r <==> exists p :: p in ps && p.category == c
  {
    var cs := seq(|ps|, i requires 0 <= i < |ps| => ps[i].category);
    assert forall c :: c in cs <==> exists p :: p in ps && p.category == c by {
      forall c | (exists p :: p in ps && p.category == c) ensures c in cs {
        var p :| p in ps && p.category == c;
        var i :| 0 <= i < |ps| && ps[i] == p;
        assert cs[i] == c;
      }
    }
    SortedUnique(cs)
  }

  /** The listed categories are pairwise different. */
  lemma CategoriesAreUnique(ps: seq<PromptPreset>)
    ensures forall i, j :: 0 <= i < j < |CategoriesOf(ps)| ==> CategoriesOf(ps)[i] != CategoriesOf(ps)[j]
  {
    StrictlySortedDistinct(CategoriesOf(ps));
  }

  /** `_load_custom_presets` on already-parsed entries: each is stored under its id. */
  function Loaded(stored: seq<PromptPreset>): (d: Dict<string, PromptPreset>)
    ensures Keyed(d)
    ensures forall k :: k in d.items <==> exists i :: 0 <= i < |stored| && stored[i].id == k
  {
    FromList(stored, (p: PromptPreset) => p.id)
  }

  // ---------------------------------------------------------------- the service

  class PresetService {
    var custom: Dict<string, PromptPreset>

    ghost predicate Valid()
      reads this
    {
      Keyed(custom)
    }

    /** Starts from the entries read back from the presets file (reading and parsing it
        are not modelled). */
    constructor(stored: seq<PromptPreset>)
      ensures Valid() && custom == Loaded(stored)
    {
      custom := Loaded(stored);
    }

    method GetAllPresets() returns (all: seq<PromptPreset>)
      requires Valid()
      ensures all == AllPresets(custom)
    {
      all := BuiltinPresets + custom.Values();
    }

    /** Scans the built-ins in order, then looks the id up among the custom presets. */
    method GetPreset(id: string) returns (r: Option<PromptPreset>)
      requires Valid()
      ensures r == Lookup(custom, id)
    {
      var i := 0;
      while i < |BuiltinPresets|
        invariant i <= |BuiltinPresets|
        invariant forall j :: 0 <= j < i ==> BuiltinPresets[j].id != id
      {
        if BuiltinPresets[i].id == id {
          IndexOfIdIs(BuiltinPresets, id, i);
          return Some(BuiltinPresets[i]);
        }
        i := i + 1;
      }
      IndexOfIdIs(BuiltinPresets, id, i);
      r := custom.Get(id);
    }

    method GetPresetsByCategory(category: string) returns (r: seq<PromptPreset>)
      requires Valid()
      ensures r == InCategory(AllPresets(custom), category)
    {
      var all := GetAllPresets();
      r := InCategory(all, category);
    }

    /** Stores a new preset under `custom_` followed by the random `suffix`. */
    method CreatePreset(suffix: HexSuffix, name: string, description: string, systemPrompt: string,
                        temperature: real, maxTokens: int, icon: string, category: string)
      returns (preset: PromptPreset)
      requires Valid()
      modifies this
      ensures Valid()
      ensures preset == PromptPreset(CustomPrefix + suffix, name, description, systemPrompt,
                                     temperature, maxTokens, icon, category)
      ensures custom == old(custom).Put(preset.id, preset)
    {
      preset := PromptPreset(CustomPrefix + suffix, name, description, systemPrompt,
                             temperature, maxTokens, icon, category);
      custom := custom.Put(preset.id, preset);
    }

    /** Deletes a custom preset; reports whether there was one with that id. */
    method DeletePreset(id: string) returns (deleted: bool)
      requires Valid()
      modifies this
      ensures Valid()
      ensures deleted <==> id in old(custom.items)
      ensures custom == if deleted then old(custom).Remove(id) else old(custom)
    {
      if id in custom.items {
        custom := custom.Remove(id);
        return true;
      }
      return false;
    }

    method GetCategories() returns (r: seq<string>)
      requires Valid()
      ensures r == CategoriesOf(AllPresets(custom))
    {
      var all := GetAllPresets();
      r := CategoriesOf(all);
    }
  }
}
