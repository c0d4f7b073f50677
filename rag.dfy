/** Keyword retrieval over indexed documents: a document scores one point per distinct
    query word found in it, matches are ranked by score (ties in indexing order) and cut
    to `top_k`, and each match is shown as a window of text around its earliest hit. */
module Rag {
  import opened Wrappers
  import opened Text
  import opened Seqs
  import opened Dicts
  import opened Sorting

  /** An indexed file: its path is its id; `metadata` holds its source path and suffix. */
  datatype Document = Document(id: string, content: string, metadata: map<string, string>)

  /** One search result. */
  datatype Hit = Hit(id: string, content: string, metadata: map<string, string>, score: int)

  function HitScore(h: Hit): int { h.score }

  /** The characters of context kept on each side of the earliest hit. */
  const ContextChars: nat := 200
  const Ellipsis: string := "..."

  // ---------------------------------------------------------------- scoring

  /** `set(query.lower().split())`. */
  function QueryWords(query: string): (words: set<string>)
    ensures forall w :: w in words ==> w != [] && w in Words(Lower(query))
  {
    set w | w in Words(Lower(query))
  }

  /** The number of distinct query words that occur in the lowercased content. */
  function Score(words: set<string>, contentLower: string): (score: nat)
    ensures score <= |words|
    ensures score > 0 <==> exists w :: w in words && Contains(contentLower, w)
  {
    var found := set w | w in words && Contains(contentLower, w);
    assert found <= words;
    SubsetCard(found, words);
    assert (exists w :: w in words && Contains(contentLower, w)) ==> found != {} by {
      if exists w :: w in words && Contains(contentLower, w) {
        var w :| w in words && Contains(contentLower, w);
        assert w in found;
      }
    }
    |found|
  }

  lemma SubsetCard<T>(a: set<T>, b: set<T>)
    requires a <= b
    ensures |a| <= |b|
  {
    assert |b| == |a| + |b - a| by {
      assert b == a + (b - a);
    }
  }

  // ---------------------------------------------------------------- snippets

  /** Where each word is first found in `cl` (`cl.find`). */
  function Finder(cl: string): string -> int {
    w => Find(cl, w)
  }

  /** `p` is where the earliest hit of any word starts, or `n` when no word occurs. */
  ghost predicate IsEarliest(n: int, words: set<string>, find: string -> int, p: int) {
    && 0 <= p <= n
    && (forall w :: w in words && find(w) >= 0 ==> p <= find(w))
    && (p == n || exists w :: w in words && find(w) == p)
  }

  /** There is one earliest position. */
  lemma EarliestUnique(n: int, words: set<string>, find: string -> int, p: int, q: int)
    requires IsEarliest(n, words, find, p) && IsEarliest(n, words, find, q)
    ensures p == q
  {
  }

  /** A found word starts at most at the end of the text. */
  lemma FindWithin(cl: string, w: string)
    ensures Finder(cl)(w) <= |cl|
  {
  }

  /** Taking one more word into account. */
  lemma EarliestStep(n: int, done: set<string>, w: string, find: string -> int, best: int)
    requires IsEarliest(n, done, find, best) && find(w) <= n
    ensures IsEarliest(n, done + {w}, find, if 0 <= find(w) < best then find(w) else best)
  {
    var f := find(w);
    var next := if 0 <= f < best then f else best;
    forall v | v in done + {w} && find(v) >= 0 ensures next <= find(v) {
      if v != w {
        assert v in done;
      }
    }
    if next != n {
      if next == f {
        assert w in done + {w} && find(w) == next;
      } else {
        var v :| v in done && find(v) == best;
        assert v in done + {w};
      }
    }
  }

  /** The earliest hit position in `cl`, by the words one at a time. */
  ghost function BestPos(cl: string, words: set<string>): (p: nat)
    ensures IsEarliest(|cl|, words, Finder(cl), p)
    decreases words
  {
    if words == {} then |cl|
    else
      var w :| w in words;
      var rest := BestPos(cl, words - {w});
      FindWithin(cl, w);
      EarliestStep(|cl|, words - {w}, w, Finder(cl), rest);
      assert words - {w} + {w} == words;
      var f := Finder(cl)(w);
      if 0 <= f < rest then f else rest
  }

  /** Where the window around a hit at `pos` starts: 200 characters before it, or the
      text's start. */
  function WindowStart(pos: nat): (start: nat)
    ensures start <= pos && pos - start <= ContextChars
    ensures start > 0 ==> pos - start == ContextChars
  {
    if pos < ContextChars then 0 else pos - ContextChars
  }

  /** Where the window around a hit at `pos` ends: 200 characters after it, or the
      text's end. */
  function WindowEnd(content: string, pos: nat): (end: nat)
    requires pos <= |content|
    ensures pos <= end <= |content| && end - pos <= ContextChars
    ensures end < |content| ==> end - pos == ContextChars
  {
    if |content| < pos + ContextChars then |content| else pos + ContextChars
  }

  /** The snippet for a hit at `pos`, or the text's opening when `pos` is its end. */
  function SnippetAt(content: string, pos: nat): (r: string)
    requires pos <= |content|
    ensures |r| <= 2 * ContextChars + 2 * |Ellipsis|
    ensures pos == |content| ==> r == content[..if |content| < 2 * ContextChars then |content| else 2 * ContextChars]
  {
    if pos == |content| then Take(content, 2 * ContextChars)
    else
      var start := WindowStart(pos);
      var end := WindowEnd(content, pos);
      (if start > 0 then Ellipsis else "") + content[start..end] + (if end < |content| then Ellipsis else "")
  }

  /** Equal slices stay equal once lowercased. */
  lemma LowerSlices(a: string, b: string, i: nat, j: nat, n: nat)
    requires i + n <= |a| && j + n <= |b| && a[i..i + n] == b[j..j + n]
    ensures Lower(a)[i..i + n] == Lower(b)[j..j + n]
  {
    LowerOfSlice(a, i, i + n);
    LowerOfSlice(b, j, j + n);
  }

  /** Where a hit at `pos` sits in its snippet: after the leading "..." if there is one
      and the kept text before the hit. */
  function HitOffset(pos: nat): nat {
    var start := WindowStart(pos);
    (if start > 0 then |Ellipsis| else 0) + (pos - start)
  }

  /** The text from the hit up to 200 characters on sits in the snippet, after the
      leading "..." if there is one and the kept text before the hit. */
  lemma SnippetHoldsWindow(content: string, pos: nat, n: nat)
    requires pos < |content| && n <= ContextChars && pos + n <= |content|
    ensures CopiedAt(SnippetAt(content, pos), HitOffset(pos), content, pos, n)
  {
    var start := WindowStart(pos);
    var end := WindowEnd(content, pos);
    var lead: string := if start > 0 then Ellipsis else "";
    var tail: string := if end < |content| then Ellipsis else "";
    var x := pos - start;
    var mid := content[start..end];
    var r := SnippetAt(content, pos);
    assert r == lead + mid + tail;
    assert |lead| + x == HitOffset(pos);
    assert x + n <= |mid|;
    SliceInMiddle(lead, mid, tail, x, n);
    SliceOfSlice(content, start, end, x, x + n);
  }

  /** The `n` characters of `content` from `pos` on appear in `r` from `off` on. */
  ghost predicate CopiedAt(r: string, off: nat, content: string, pos: nat, n: nat) {
    pos + n <= |content| && off + n <= |r| && r[off..off + n] == content[pos..pos + n]
  }

  /** A hit copied, with the text around it, into another string is a hit there too. */
  lemma HitInCopy(r: string, content: string, off: nat, pos: nat, w: string)
    requires OccursAt(Lower(content), w, pos)
    requires CopiedAt(r, off, content, pos, |w|)
    ensures Contains(Lower(r), w)
  {
    LowerSlices(r, content, off, pos, |w|);
    assert OccursAt(Lower(r), w, off);
  }

  /** A hit of at most 200 characters is shown whole in its snippet. */
  lemma SnippetShowsHit(content: string, pos: nat, w: string)
    requires OccursAt(Lower(content), w, pos) && pos < |content| && |w| <= ContextChars
    ensures Contains(Lower(SnippetAt(content, pos)), w)
  {
    var r := SnippetAt(content, pos);
    SnippetHoldsWindow(content, pos, |w|);
    HitInCopy(r, content, HitOffset(pos), pos, w);
  }

  /** The loop of `_extract_snippet`: the earliest hit of any word, the words taken one
      at a time in no particular order; the text's length when none occurs. */
  method EarliestHit(contentLower: string, words: set<string>) returns (bestPos: nat)
    ensures bestPos == BestPos(contentLower, words)
  {
    bestPos := |contentLower|;
    var remaining := words;
    ghost var done: set<string> := {};
    while remaining != {}
      invariant remaining <= words && done == words - remaining
      invariant IsEarliest(|contentLower|, done, Finder(contentLower), bestPos)
      decreases |remaining|
    {
      var w :| w in remaining;
      var pos := Find(contentLower, w);
      FindWithin(contentLower, w);
      EarliestStep(|contentLower|, done, w, Finder(contentLower), bestPos);
      if 0 <= pos < bestPos {
        bestPos := pos;
      }
      assert words - (remaining - {w}) == done + {w};
      remaining := remaining - {w};
      done := done + {w};
    }
    EarliestUnique(|contentLower|, words, Finder(contentLower), bestPos, BestPos(contentLower, words));
  }

  /** `_extract_snippet`: the window around the earliest hit, or the opening 400
      characters when no word occurs. */
  method ExtractSnippet(content: string, words: set<string>) returns (snippet: string)
    ensures snippet == SnippetAt(content, BestPos(Lower(content), words))
  {
    var bestPos := EarliestHit(Lower(content), words);
    snippet := SnippetAround(content, bestPos);
  }

  /** The snippet around position `bestPos`, built as `_extract_snippet` builds it. */
  method SnippetAround(content: string, bestPos: nat) returns (snippet: string)
    requires bestPos <= |content|
    ensures snippet == SnippetAt(content, bestPos)
  {
    if bestPos == |content| {
      return Take(content, 2 * ContextChars);
    }
    var start := WindowStart(bestPos);
    var end := WindowEnd(content, bestPos);
    ghost var lead: string := if start > 0 then Ellipsis else "";
    ghost var tail: string := if end < |content| then Ellipsis else "";
    snippet := content[start..end];
    if start > 0 {
      snippet := Ellipsis + snippet;
    }
    assert snippet == lead + content[start..end];
    if end < |content| {
      snippet := snippet + Ellipsis;
    }
    assert snippet == lead + content[start..end] + tail;
  }

  /** When some word occurs in the text, the window is around a real hit. */
  lemma ScoredDocumentHasHit(content: string, words: set<string>)
    requires Score(words, Lower(content)) > 0
    requires forall w :: w in words ==> w != []
    ensures BestPos(Lower(content), words) < |content|
  {
    var w :| w in words && Contains(Lower(content), w);
    var cl := Lower(content);
    assert Finder(cl)(w) == Find(cl, w) != -1;
    assert OccursAt(cl, w, Find(cl, w));
  }

  // ---------------------------------------------------------------- search

  /** The hits of the documents, in document order: those with a positive score. */
  function HitsOf(docs: seq<Document>, score: Document -> int, snippet: Document -> string): (hits: seq<Hit>)
    ensures |hits| <= |docs|
  {
    if docs == [] then []
    else
      var d := docs[|docs| - 1];
      var rest := HitsOf(docs[..|docs| - 1], score, snippet);
      if score(d) > 0 then rest + [Hit(d.id, snippet(d), d.metadata, score(d))]
      else rest
  }

  /** Each hit is a document with a positive score, shown with its score and snippet, and
      each document with a positive score is listed. */
  lemma {:induction false} HitsAreTheMatches(docs: seq<Document>, score: Document -> int, snippet: Document -> string)
    ensures forall h :: h in HitsOf(docs, score, snippet) ==>
              exists d :: d in docs && h == Hit(d.id, snippet(d), d.metadata, score(d)) && score(d) > 0
    ensures forall d :: d in docs && score(d) > 0 ==>
              Hit(d.id, snippet(d), d.metadata, score(d)) in HitsOf(docs, score, snippet)
  {
    if docs != [] {
      var prefix := docs[..|docs| - 1];
      var d := docs[|docs| - 1];
      HitsAreTheMatches(prefix, score, snippet);
      assert docs == prefix + [d];
      forall e | e in prefix ensures e in docs {
      }
    }
  }

  /** A document's score for the query words. */
  function DocScore(words: set<string>): Document -> int {
    (d: Document) => Score(words, Lower(d.content))
  }

  /** A document's snippet for the query words. */
  ghost function DocSnippet(words: set<string>): Document -> string {
    (d: Document) => SnippetAt(d.content, BestPos(Lower(d.content), words))
  }

  /** Python's `xs[:n]` for any integer `n`: a negative `n` counts from the end. */
  function SliceTo<T>(xs: seq<T>, n: int): (r: seq<T>)
    ensures |r| <= |xs| && r == xs[..|r|]
    ensures n >= 0 ==> |r| == if n < |xs| then n else |xs|
    ensures n < 0 ==> |r| == if |xs| + n < 0 then 0 else |xs| + n
  {
    if n >= 0 then (if n < |xs| then xs[..n] else xs)
    else if |xs| + n < 0 then [] else xs[..|xs| + n]
  }

  /** The ranked results: best score first, equal scores in document order, at most `topK`. */
  ghost function Ranked(docs: seq<Document>, words: set<string>, topK: int): seq<Hit> {
    SliceTo(SortDesc(Hits(docs, words), HitScore), topK)
  }

  ghost function Hits(docs: seq<Document>, words: set<string>): seq<Hit> {
    HitsOf(docs, DocScore(words), DocSnippet(words))
  }

  /** The results are ordered by decreasing score, stable, and no more than `topK`. */
  lemma RankedOrder(docs: seq<Document>, words: set<string>, topK: int)
    ensures SortedDesc(Ranked(docs, words, topK), HitScore)
    ensures topK >= 0 ==> |Ranked(docs, words, topK)| <= topK
    ensures forall h :: h in Ranked(docs, words, topK) ==> h in Hits(docs, words)
    ensures forall v :: WithKey(SortDesc(Hits(docs, words), HitScore), HitScore, v) == WithKey(Hits(docs, words), HitScore, v)
  {
    var sorted := SortDesc(Hits(docs, words), HitScore);
    SortDescSorted(Hits(docs, words), HitScore);
    forall v {
      SortDescStable(Hits(docs, words), HitScore, v);
    }
    var r := SliceTo(sorted, topK);
    assert forall i :: 0 <= i < |r| ==> r[i] == sorted[i];
    forall h | h in r ensures h in Hits(docs, words) {
      assert h in multiset(sorted);
    }
  }

  // ---------------------------------------------------------------- the service

  /** Removes every listed key, in order (`del` of a missing key is skipped). */
  function RemoveAll(docs: Dict<string, Document>, files: seq<string>): (r: Dict<string, Document>)
    requires docs.Valid()
    ensures r.Valid()
    ensures r.items == docs.items - set f | f in files
    ensures IsSubsequence(r.keys, docs.keys)
    decreases |files|
  {
    if files == [] then
      SubsequenceRefl(docs.keys);
      docs
    else
      var d := RemoveAll(docs, files[..|files| - 1]);
      var f := files[|files| - 1];
      assert files == files[..|files| - 1] + [f];
      WithoutIsSubsequence(d.keys, f);
      SubsequenceTrans(Without(d.keys, f), d.keys, docs.keys);
      d.Remove(f)
  }

  /** Removing one more file removes it from what the earlier removals left. */
  lemma RemoveAllStep(docs: Dict<string, Document>, files: seq<string>, i: nat)
    requires docs.Valid() && i < |files|
    ensures RemoveAll(docs, files[..i + 1]) == RemoveAll(docs, files[..i]).Remove(files[i])
  {
    var p := files[..i + 1];
    assert p[..|p| - 1] == files[..i] && p[|p| - 1] == files[i];
  }

  /** Removing a file that is not there changes nothing. */
  lemma RemoveAbsent(d: Dict<string, Document>, f: string)
    requires d.Valid() && f !in d.items
    ensures d.Remove(f) == d
  {
    assert f !in d.keys;
    assert d.items - {f} == d.items;
  }

  lemma {:induction false} WithoutIsSubsequence(keys: seq<string>, k: string)
    ensures IsSubsequence(Without(keys, k), keys)
  {
    if keys != [] {
      WithoutIsSubsequence(keys[1..], k);
      if keys[0] == k {
        SubsequenceSkip(Without(keys[1..], k), keys);
      } else {
        SubsequenceCons(keys[0], Without(keys[1..], k), keys[1..]);
        assert keys == [keys[0]] + keys[1..];
      }
    }
  }

  lemma {:induction false} SubsequenceTrans(a: seq<string>, b: seq<string>, c: seq<string>)
    requires IsSubsequence(a, b) && IsSubsequence(b, c)
    ensures IsSubsequence(a, c)
    decreases |c|
  {
    if a != [] {
      if b[0] == c[0] {
        if a[0] == b[0] {
          SubsequenceTrans(a[1..], b[1..], c[1..]);
        } else {
          SubsequenceTrans(a, b[1..], c[1..]);
        }
      } else {
        SubsequenceTrans(a, b, c[1..]);
        SubsequenceSkip(a, c);
      }
    }
  }

  // ---------------------------------------------------------------- indexing

  /** A path the directory walk yields: whether it is a file, its suffix, and the text
      `_read_file` gives for it ("" when it is empty or cannot be read). */
  datatype WalkedPath = WalkedPath(path: string, isFile: bool, suffix: string, content: string)

  /** What `index_directory` reports. */
  datatype IndexSummary = IndexSummary(directory: string, filesIndexed: nat, files: seq<string>)

  const SupportedExtensions: set<string> := {".txt", ".md", ".py", ".js", ".ts", ".json", ".pdf"}

  /** A walked path that becomes a document: a file with a supported suffix and some text. */
  predicate Indexable(f: WalkedPath) {
    f.isFile && f.suffix in SupportedExtensions && f.content != []
  }

  /** The document stored for a walked file, keyed and identified by its path. */
  function DocOf(f: WalkedPath): (d: Document)
    ensures d.id == f.path && d.content == f.content
  {
    Document(f.path, f.content, map["source" := f.path, "type" := f.suffix])
  }

  /** Every document is stored under its own id. */
  ghost predicate KeyedDocs(docs: Dict<string, Document>) {
    docs.Valid() && forall k :: k in docs.items ==> docs.items[k].id == k
  }

  /** The paths of the indexable files of the walk, in walk order. */
  function IndexedPaths(walk: seq<WalkedPath>): (paths: seq<string>)
    ensures forall p :: p in paths <==> exists f :: f in walk && Indexable(f) && f.path == p
  {
    if walk == [] then []
    else
      var front := walk[..|walk| - 1];
      var f := walk[|walk| - 1];
      assert walk == front + [f];
      IndexedPaths(front) + (if Indexable(f) then [f.path] else [])
  }

  /** The documents after storing the indexable files of the walk, one after another. */
  function StoreAll(docs: Dict<string, Document>, walk: seq<WalkedPath>): (r: Dict<string, Document>)
    requires KeyedDocs(docs)
    ensures KeyedDocs(r)
    ensures forall k :: k in r.items <==> k in docs.items || k in IndexedPaths(walk)
    ensures forall k :: k in docs.items && k !in IndexedPaths(walk) ==> r.items[k] == docs.items[k]
  {
    if walk == [] then docs
    else
      var d := StoreAll(docs, walk[..|walk| - 1]);
      var f := walk[|walk| - 1];
      if Indexable(f) then d.Put(f.path, DocOf(f)) else d
  }

  /** The last indexable file of a walk is stored as its document. */
  lemma LastIndexedIsStored(docs: Dict<string, Document>, walk: seq<WalkedPath>)
    requires KeyedDocs(docs) && walk != [] && Indexable(walk[|walk| - 1])
    ensures var f := walk[|walk| - 1];
            StoreAll(docs, walk).items[f.path] == DocOf(f)
  {
  }

  lemma StoreAllStep(docs: Dict<string, Document>, walk: seq<WalkedPath>, i: nat)
    requires KeyedDocs(docs) && i < |walk|
    ensures StoreAll(docs, walk[..i + 1])
            == if Indexable(walk[i]) then StoreAll(docs, walk[..i]).Put(walk[i].path, DocOf(walk[i]))
               else StoreAll(docs, walk[..i])
    ensures IndexedPaths(walk[..i + 1]) == IndexedPaths(walk[..i]) + (if Indexable(walk[i]) then [walk[i].path] else [])
  {
    var p := walk[..i + 1];
    assert p[..|p| - 1] == walk[..i] && p[|p| - 1] == walk[i];
  }

  /** The id a search reports for a hit is the key its document is stored under, as the
      search reports the dictionary key. */
  lemma HitIdsAreKeys(docs: Dict<string, Document>, words: set<string>, topK: int)
    requires KeyedDocs(docs)
    ensures forall h :: h in Ranked(docs.Values(), words, topK) ==> h.id in docs.items && docs.items[h.id].id == h.id
  {
    var vs := docs.Values();
    RankedFromDocs(vs, words, topK);
    KeyedValues(docs);
    forall h | h in Ranked(vs, words, topK) ensures h.id in docs.items && docs.items[h.id].id == h.id {
      var d :| d in vs && d.id == h.id;
    }
  }

  /** Every ranked hit comes from one of the documents and carries its id. */
  lemma RankedFromDocs(vs: seq<Document>, words: set<string>, topK: int)
    ensures forall h :: h in Ranked(vs, words, topK) ==> exists d :: d in vs && d.id == h.id
  {
    RankedOrder(vs, words, topK);
    HitsAreTheMatches(vs, DocScore(words), DocSnippet(words));
  }

  /** In a keyed store each document sits under its own id. */
  lemma KeyedValues(docs: Dict<string, Document>)
    requires KeyedDocs(docs)
    ensures forall d :: d in docs.Values() ==> d.id in docs.items && docs.items[d.id] == d
  {
    var vs := docs.Values();
    forall d | d in vs ensures d.id in docs.items && docs.items[d.id] == d {
      var j :| 0 <= j < |vs| && vs[j] == d;
      assert docs.keys[j] in docs.items && docs.items[docs.keys[j]] == d;
    }
  }

  class RagService {
    var documents: Dict<string, Document>
    var indexedDirectories: Dict<string, seq<string>>

    ghost predicate Valid()
      reads this
    {
      KeyedDocs(documents) && indexedDirectories.Valid()
    }

    /** Starts with no documents and the directory index read back from disk (reading it
        is not modelled; an unreadable index leaves it empty). */
    constructor(savedIndex: Dict<string, seq<string>>)
      requires savedIndex.Valid()
      ensures Valid() && documents == Dict.Empty() && indexedDirectories == savedIndex
    {
      documents := Dict.Empty();
      indexedDirectories := savedIndex;
    }

    /** `index_directory` over the paths the directory walk yields (`walk`); `dirExists`
        tells whether the directory is there. Each indexable file is stored as a document
        under its path and listed; the directory then maps to that list. */
    method IndexDirectory(directory: string, dirExists: bool, walk: seq<WalkedPath>) returns (r: Result<IndexSummary, string>)
      requires Valid()
      modifies this
      ensures Valid()
      ensures !dirExists ==> (r == Err("Directory not found: " + directory)
                              && documents == old(documents) && indexedDirectories == old(indexedDirectories))
      ensures dirExists ==> var files := IndexedPaths(walk);
                         && r == Ok(IndexSummary(directory, |files|, files))
                         && documents == StoreAll(old(documents), walk)
                         && indexedDirectories == old(indexedDirectories).Put(directory, files)
    {
      if !dirExists {
        return Err("Directory not found: " + directory);
      }
      var indexed: seq<string> := [];
      for i := 0 to |walk|
        invariant KeyedDocs(documents) && indexedDirectories == old(indexedDirectories)
        invariant documents == StoreAll(old(documents), walk[..i])
        invariant indexed == IndexedPaths(walk[..i])
      {
        var f := walk[i];
        StoreAllStep(old(documents), walk, i);
        if f.isFile && f.suffix in SupportedExtensions && f.content != [] {
          documents := documents.Put(f.path, DocOf(f));
          indexed := indexed + [f.path];
        }
      }
      assert walk[..|walk|] == walk;
      indexedDirectories := indexedDirectories.Put(directory, indexed);
      r := Ok(IndexSummary(directory, |indexed|, indexed));
    }

    /** `search`: scores every document in indexing order, keeps those with a hit, sorts
        by decreasing score and cuts to `topK`. */
    method Search(query: string, topK: int) returns (results: seq<Hit>)
      requires Valid()
      ensures results == Ranked(documents.Values(), QueryWords(query), topK)
    {
      var words := QueryWords(query);
      var docs := documents.Values();
      var found: seq<Hit> := [];
      for i := 0 to |docs|
        invariant found == HitsOf(docs[..i], DocScore(words), DocSnippet(words))
      {
        var doc := docs[i];
        assert docs[..i + 1][..i] == docs[..i] && docs[..i + 1][i] == doc;
        var score := Score(words, Lower(doc.content));
        if score > 0 {
          var snippet := ExtractSnippet(doc.content, words);
          found := found + [Hit(doc.id, snippet, doc.metadata, score)];
        }
      }
      assert docs[..|docs|] == docs;
      results := SliceTo(SortDesc(found, HitScore), topK);
    }

    /** `remove_directory`: forgets a directory and the documents of its listed files. */
    method RemoveDirectory(directory: string) returns (removed: bool)
      requires Valid()
      modifies this
      ensures Valid()
      ensures removed <==> directory in old(indexedDirectories.items)
      ensures !removed ==> documents == old(documents) && indexedDirectories == old(indexedDirectories)
      ensures removed ==> (documents == RemoveAll(old(documents), old(indexedDirectories.items[directory]))
                           && indexedDirectories == old(indexedDirectories).Remove(directory))
    {
      if directory !in indexedDirectories.items {
        return false;
      }
      var files := indexedDirectories.items[directory];
      for i := 0 to |files|
        invariant Valid()
        invariant indexedDirectories == old(indexedDirectories)
        invariant documents == RemoveAll(old(documents), files[..i])
      {
        RemoveAllStep(old(documents), files, i);
        if files[i] in documents.items {
          documents := documents.Remove(files[i]);
        } else {
          RemoveAbsent(documents, files[i]);
        }
      }
      assert files[..|files|] == files;
      indexedDirectories := indexedDirectories.Remove(directory);
      removed := true;
    }
  }
}
