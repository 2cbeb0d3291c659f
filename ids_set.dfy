/**
 * `IdsSet`, the value kept in each store: a set of 64-bit chat identifiers with
 * a text form of one decimal identifier per line (`From<String>`, `Into<String>`
 * and `Default` in src/main.rs).
 */
module IdsSet {
  import opened Wrappers
  import opened Text

  /** `IdsSet::default()`: the empty set. */
  function Default(): (r: set<Int64>)
    ensures forall x: Int64 :: x !in r
  {
    {}
  }

  /** Flips the membership of `id` and leaves every other identifier alone. */
  function Toggled(ids: set<Int64>, id: Int64): (r: set<Int64>)
    ensures id in r <==> id !in ids
    ensures forall y :: y != id ==> (y in r <==> y in ids)
  {
    if id in ids then ids - {id} else ids + {id}
  }

  /** Toggling the same identifier twice gives the original set back. */
  lemma ToggleTwice(ids: set<Int64>, id: Int64)
    ensures Toggled(Toggled(ids, id), id) == ids
  {
  }

  // ---------------------------------------------------------------------------
  // Decoding

  /** The identifiers one line contributes: its value if it parses, none otherwise. */
  function LineIds(l: string): set<Int64> {
    match ParseI64(l)
    case Some(x) => {x}
    case None => {}
  }

  /** The identifiers of the lines that parse, processed first line first. */
  function ParsedIds(ls: seq<string>): set<Int64> {
    if ls == [] then {} else ParsedIds(ls[..|ls| - 1]) + LineIds(ls[|ls| - 1])
  }

  /** What `IdsSet::from` makes of a text. */
  function Decoded(s: string): set<Int64> {
    ParsedIds(Lines(s))
  }

  /** An identifier is collected exactly when some line parses to it. */
  lemma {:induction false} ParsedIdsMembers(ls: seq<string>, x: Int64)
    ensures x in ParsedIds(ls) <==> exists k :: 0 <= k < |ls| && ParseI64(ls[k]) == Some(x)
  {
    if ls != [] {
      var init := ls[..|ls| - 1];
      ParsedIdsMembers(init, x);
      assert forall k :: 0 <= k < |init| ==> init[k] == ls[k];
      if x in LineIds(ls[|ls| - 1]) {
        assert ParseI64(ls[|ls| - 1]) == Some(x);
      }
    }
  }

  /**
   * Decoding keeps exactly the values of the lines that parse as `i64`: blank or
   * malformed lines contribute nothing, and repeated lines collapse.
   */
  lemma DecodedMembers(s: string)
    ensures forall x: Int64 :: x in Decoded(s) <==> exists l :: l in Lines(s) && ParseI64(l) == Some(x)
  {
    forall x: Int64
      ensures x in Decoded(s) <==> exists l :: l in Lines(s) && ParseI64(l) == Some(x)
    {
      ParsedIdsMembers(Lines(s), x);
    }
  }

  /** `IdsSet::from`: parse every line and collect the ones that parse. */
  method Decode(s: string) returns (ids: set<Int64>)
    ensures ids == Decoded(s)
  {
    var lines := Lines(s);
    ids := {};
    for i := 0 to |lines|
      invariant ids == ParsedIds(lines[..i])
    {
      assert lines[..i + 1][..i] == lines[..i];
      match ParseI64(lines[i]) {
        case Some(id) => ids := ids + {id};
        case None =>
      }
    }
    assert lines[..|lines|] == lines;
  }

  // ---------------------------------------------------------------------------
  // Encoding

  predicate NoDuplicates(order: seq<Int64>) {
    forall i, j :: 0 <= i < j < |order| ==> order[i] != order[j]
  }

  /** `order` lists every member of `ids` once, in some order (a `HashSet` iteration). */
  ghost predicate Enumerates(order: seq<Int64>, ids: set<Int64>) {
    NoDuplicates(order) && forall x :: x in order <==> x in ids
  }

  function Shows(order: seq<Int64>): (ls: seq<string>)
    ensures |ls| == |order|
  {
    seq(|order|, k requires 0 <= k < |order| => ShowInt(order[k]))
  }

  /** The text `IdsSet::into` writes when the set is iterated in `order`. */
  function EncodeSeq(order: seq<Int64>): string {
    Terminated(Shows(order))
  }

  /** `s` is what `IdsSet::into` may write for `ids`, for some iteration order. */
  ghost predicate Encodes(s: string, ids: set<Int64>) {
    exists order :: Enumerates(order, ids) && s == EncodeSeq(order)
  }

  /** The encoding has exactly one line per listed identifier, in the same order. */
  lemma EncodeLines(order: seq<Int64>)
    ensures Lines(EncodeSeq(order)) == Shows(order)
  {
    LinesOfTerminated(Shows(order));
  }

  /** When the order lists each member once, the encoded lines are pairwise distinct. */
  lemma EncodeLinesDistinct(order: seq<Int64>)
    requires NoDuplicates(order)
    ensures |Lines(EncodeSeq(order))| == |order|
    ensures forall i, j :: 0 <= i < j < |order| ==> Lines(EncodeSeq(order))[i] != Lines(EncodeSeq(order))[j]
  {
    EncodeLines(order);
    forall i, j | 0 <= i < j < |order|
      ensures Shows(order)[i] != Shows(order)[j]
    {
      ShowInjective(order[i], order[j]);
    }
  }

  /** In a sequence without repeats every element occurs exactly once. */
  lemma {:induction false} DistinctOccursOnce<T>(a: seq<T>, x: T)
    requires forall i, j :: 0 <= i < j < |a| ==> a[i] != a[j]
    ensures multiset(a)[x] == if x in a then 1 else 0
  {
    if a != [] {
      var tail := a[1..];
      assert a == [a[0]] + tail;
      assert forall i, j :: 0 <= i < j < |tail| ==> tail[i] != tail[j] by {
        forall i, j | 0 <= i < j < |tail| ensures tail[i] != tail[j] {
          assert tail[i] == a[i + 1] && tail[j] == a[j + 1];
        }
      }
      DistinctOccursOnce(tail, x);
      assert a[0] !in tail by {
        forall k | 0 <= k < |tail| ensures tail[k] != a[0] {
          assert tail[k] == a[k + 1];
        }
      }
      assert multiset(a) == multiset([a[0]]) + multiset(tail);
    }
  }

  /** Two sequences without repeats and with the same elements are permutations of each other. */
  lemma SameDistinctElements<T>(a: seq<T>, b: seq<T>)
    requires forall i, j :: 0 <= i < j < |a| ==> a[i] != a[j]
    requires forall i, j :: 0 <= i < j < |b| ==> b[i] != b[j]
    requires forall x :: x in a <==> x in b
    ensures multiset(a) == multiset(b)
  {
    forall x ensures multiset(a)[x] == multiset(b)[x] {
      DistinctOccursOnce(a, x);
      DistinctOccursOnce(b, x);
    }
  }

  /** The lines written for two enumerations of the same set are the same strings. */
  lemma ShowsSameElements(oa: seq<Int64>, ob: seq<Int64>, ids: set<Int64>)
    requires Enumerates(oa, ids) && Enumerates(ob, ids)
    ensures forall l :: l in Shows(oa) <==> l in Shows(ob)
  {
    var la, lb := Shows(oa), Shows(ob);
    forall l ensures l in la ==> l in lb {
      if l in la {
        var k :| 0 <= k < |la| && la[k] == l;
        assert oa[k] in ob;
        var k' :| 0 <= k' < |ob| && ob[k'] == oa[k];
        assert lb[k'] == l;
      }
    }
    forall l ensures l in lb ==> l in la {
      if l in lb {
        var k :| 0 <= k < |lb| && lb[k] == l;
        assert ob[k] in oa;
        var k' :| 0 <= k' < |oa| && oa[k'] == ob[k];
        assert la[k'] == l;
      }
    }
  }

  /**
   * Two encodings of the same set have the same lines, each exactly once: they
   * differ at most in the order of the lines.
   */
  lemma EncodingsSameLines(a: string, b: string, ids: set<Int64>)
    requires Encodes(a, ids) && Encodes(b, ids)
    ensures multiset(Lines(a)) == multiset(Lines(b))
    ensures forall l :: multiset(Lines(a))[l] == if l in Lines(a) then 1 else 0
  {
    var oa :| Enumerates(oa, ids) && a == EncodeSeq(oa);
    var ob :| Enumerates(ob, ids) && b == EncodeSeq(ob);
    EncodeLinesDistinct(oa);
    EncodeLinesDistinct(ob);
    EncodeLines(oa);
    EncodeLines(ob);
    ShowsSameElements(oa, ob, ids);
    SameDistinctElements(Lines(a), Lines(b));
    forall l ensures multiset(Lines(a))[l] == if l in Lines(a) then 1 else 0 {
      DistinctOccursOnce(Lines(a), l);
    }
  }

  /** Decoding an encoding of `ids`, in whatever order, gives `ids` back. */
  lemma RoundTrip(order: seq<Int64>, ids: set<Int64>)
    requires Enumerates(order, ids)
    ensures Decoded(EncodeSeq(order)) == ids
  {
    var s := EncodeSeq(order);
    EncodeLines(order);
    DecodedMembers(s);
    forall x: Int64
      ensures x in Decoded(s) <==> x in ids
    {
      if x in ids {
        var k :| 0 <= k < |order| && order[k] == x;
        ParseShow(x);
        assert Lines(s)[k] == ShowInt(x);
      }
      if x in Decoded(s) {
        var l :| l in Lines(s) && ParseI64(l) == Some(x);
        var k :| 0 <= k < |order| && Lines(s)[k] == l;
        ParseShow(order[k]);
      }
    }
  }

  lemma EncodesDecodes(s: string, ids: set<Int64>)
    requires Encodes(s, ids)
    ensures Decoded(s) == ids
  {
    var order :| Enumerates(order, ids) && s == EncodeSeq(order);
    RoundTrip(order, ids);
  }

  /** The empty set is written as the empty text, and the empty text reads back as the empty set. */
  lemma DefaultText()
    ensures Encodes("", Default())
    ensures Decoded("") == Default()
  {
    assert Enumerates([], Default());
    assert EncodeSeq([]) == "";
  }

  /** `IdsSet::into`: write each member followed by a line feed, in iteration order. */
  method Encode(ids: set<Int64>) returns (s: string)
    ensures Encodes(s, ids)
    ensures Decoded(s) == ids
  {
    s := "";
    var rest := ids;
    ghost var done: seq<Int64> := [];
    while rest != {}
      invariant NoDuplicates(done)
      invariant forall x :: x in done <==> x in ids && x !in rest
      invariant rest <= ids
      invariant s == EncodeSeq(done)
      decreases rest
    {
      var id :| id in rest;
      TerminatedSnoc(Shows(done), ShowInt(id));
      assert Shows(done + [id]) == Shows(done) + [ShowInt(id)];
      s := s + ShowInt(id) + "\n";
      done := done + [id];
      rest := rest - {id};
    }
    assert Enumerates(done, ids);
    RoundTrip(done, ids);
  }
}
