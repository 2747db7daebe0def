/** The walk over a profile's fragment -> minor fragment -> operator
    hierarchy: the document order in which both scripts visit operators. */
module Traversal {
  import opened ProfileDocument

  /** An operator entry together with the fragment identifiers the walk attaches to it
      (a missing identifier reads as 0). */
  datatype Located = Located(fragmentId: nat, minorFragmentId: nat, op: OperatorProfile)

  function LocateOperators(fid: nat, mid: nat, ops: seq<OperatorProfile>): seq<Located> {
    if |ops| == 0 then [] else [Located(fid, mid, ops[0])] + LocateOperators(fid, mid, ops[1..])
  }

  function MinorEntries(fid: nat, ms: seq<MinorFragmentProfile>): seq<Located> {
    if |ms| == 0 then []
    else LocateOperators(fid, ms[0].minorFragmentId.GetOr(0), OperatorsOf(ms[0])) + MinorEntries(fid, ms[1..])
  }

  function FragmentEntries(fs: seq<FragmentProfile>): seq<Located> {
    if |fs| == 0 then []
    else MinorEntries(fs[0].majorFragmentId.GetOr(0), MinorsOf(fs[0])) + FragmentEntries(fs[1..])
  }

  /** Every operator entry of the document, fragment-major, then minor fragment, then operator. */
  function OperatorEntries(p: QueryProfile): seq<Located> {
    FragmentEntries(FragmentsOf(p))
  }

  /** Number of operator entries under a list of minor fragments. */
  function MinorCount(ms: seq<MinorFragmentProfile>): nat {
    if |ms| == 0 then 0 else |OperatorsOf(ms[0])| + MinorCount(ms[1..])
  }

  /** Number of operator entries under a list of fragments. */
  function FragmentCount(fs: seq<FragmentProfile>): nat {
    if |fs| == 0 then 0 else MinorCount(MinorsOf(fs[0])) + FragmentCount(fs[1..])
  }

  /** Position of operator `oi` of minor fragment `mi` of fragment `fi`: the number of
      operator entries that precede it in document order. */
  function EntryIndex(fs: seq<FragmentProfile>, fi: nat, mi: nat, oi: nat): nat
    requires fi < |fs| && mi < |MinorsOf(fs[fi])|
  {
    FragmentCount(fs[..fi]) + MinorCount(MinorsOf(fs[fi])[..mi]) + oi
  }

  /** `(fi, mi, oi)` addresses an operator entry of `fs`. */
  predicate ValidAddress(fs: seq<FragmentProfile>, fi: nat, mi: nat, oi: nat) {
    && fi < |fs|
    && mi < |MinorsOf(fs[fi])|
    && oi < |OperatorsOf(MinorsOf(fs[fi])[mi])|
  }

  /** Lexicographic order on addresses. */
  predicate AddressBefore(fi: nat, mi: nat, oi: nat, fj: nat, mj: nat, oj: nat) {
    fi < fj || (fi == fj && (mi < mj || (mi == mj && oi < oj)))
  }

  lemma {:induction false} LocateOperatorsAt(fid: nat, mid: nat, ops: seq<OperatorProfile>)
    ensures |LocateOperators(fid, mid, ops)| == |ops|
    ensures forall k :: 0 <= k < |ops| ==> LocateOperators(fid, mid, ops)[k] == Located(fid, mid, ops[k])
    decreases |ops|
  {
    if |ops| > 0 {
      LocateOperatorsAt(fid, mid, ops[1..]);
    }
  }

  lemma {:induction false} MinorCountAppend(a: seq<MinorFragmentProfile>, b: seq<MinorFragmentProfile>)
    ensures MinorCount(a + b) == MinorCount(a) + MinorCount(b)
    decreases |a|
  {
    if |a| == 0 {
      assert a + b == b;
    } else {
      assert (a + b)[1..] == a[1..] + b;
      MinorCountAppend(a[1..], b);
    }
  }

  lemma {:induction false} FragmentCountAppend(a: seq<FragmentProfile>, b: seq<FragmentProfile>)
    ensures FragmentCount(a + b) == FragmentCount(a) + FragmentCount(b)
    decreases |a|
  {
    if |a| == 0 {
      assert a + b == b;
    } else {
      assert (a + b)[1..] == a[1..] + b;
      FragmentCountAppend(a[1..], b);
    }
  }

  lemma {:induction false} MinorEntriesLength(fid: nat, ms: seq<MinorFragmentProfile>)
    ensures |MinorEntries(fid, ms)| == MinorCount(ms)
    decreases |ms|
  {
    if |ms| > 0 {
      LocateOperatorsAt(fid, ms[0].minorFragmentId.GetOr(0), OperatorsOf(ms[0]));
      MinorEntriesLength(fid, ms[1..]);
    }
  }

  /** One walk record per operator entry: the walk's length is the number of operator entries. */
  lemma {:induction false} OperatorEntriesCount(fs: seq<FragmentProfile>)
    ensures |FragmentEntries(fs)| == FragmentCount(fs)
    decreases |fs|
  {
    if |fs| > 0 {
      MinorEntriesLength(fs[0].majorFragmentId.GetOr(0), MinorsOf(fs[0]));
      OperatorEntriesCount(fs[1..]);
    }
  }

  lemma {:induction false} MinorEntryAt(fid: nat, ms: seq<MinorFragmentProfile>, mi: nat, oi: nat)
    requires mi < |ms| && oi < |OperatorsOf(ms[mi])|
    ensures MinorCount(ms[..mi]) + oi < MinorCount(ms)
    ensures MinorCount(ms[..mi]) + oi < |MinorEntries(fid, ms)|
    ensures MinorEntries(fid, ms)[MinorCount(ms[..mi]) + oi]
         == Located(fid, ms[mi].minorFragmentId.GetOr(0), OperatorsOf(ms[mi])[oi])
    decreases mi
  {
    MinorEntriesLength(fid, ms);
    var first := LocateOperators(fid, ms[0].minorFragmentId.GetOr(0), OperatorsOf(ms[0]));
    LocateOperatorsAt(fid, ms[0].minorFragmentId.GetOr(0), OperatorsOf(ms[0]));
    if mi == 0 {
      assert ms[..0] == [];
    } else {
      MinorEntryAt(fid, ms[1..], mi - 1, oi);
      assert ms[..mi] == [ms[0]] + ms[1..][..mi - 1];
      MinorCountAppend([ms[0]], ms[1..][..mi - 1]);
      assert MinorCount([ms[0]]) == |OperatorsOf(ms[0])| by {
        assert [ms[0]][1..] == [];
      }
    }
  }

  /** The walk lists operator `oi` of minor fragment `mi` of fragment `fi` at position
      `EntryIndex(fs, fi, mi, oi)`, carrying that fragment's and minor fragment's ids. */
  lemma {:induction false} OperatorEntryAt(fs: seq<FragmentProfile>, fi: nat, mi: nat, oi: nat)
    requires ValidAddress(fs, fi, mi, oi)
    ensures EntryIndex(fs, fi, mi, oi) < |FragmentEntries(fs)|
    ensures FragmentEntries(fs)[EntryIndex(fs, fi, mi, oi)]
         == Located(fs[fi].majorFragmentId.GetOr(0),
                    MinorsOf(fs[fi])[mi].minorFragmentId.GetOr(0),
                    OperatorsOf(MinorsOf(fs[fi])[mi])[oi])
    decreases fi
  {
    var fid := fs[0].majorFragmentId.GetOr(0);
    MinorEntriesLength(fid, MinorsOf(fs[0]));
    if fi == 0 {
      assert fs[..0] == [];
      MinorEntryAt(fid, MinorsOf(fs[0]), mi, oi);
    } else {
      OperatorEntryAt(fs[1..], fi - 1, mi, oi);
      assert fs[..fi] == [fs[0]] + fs[1..][..fi - 1];
      FragmentCountAppend([fs[0]], fs[1..][..fi - 1]);
      assert FragmentCount([fs[0]]) == MinorCount(MinorsOf(fs[0])) by {
        assert [fs[0]][1..] == [];
      }
    }
  }

  /** Document order: an address that comes earlier lexicographically gets an earlier position. */
  lemma OperatorEntriesInDocumentOrder(fs: seq<FragmentProfile>, fi: nat, mi: nat, oi: nat, fj: nat, mj: nat, oj: nat)
    requires ValidAddress(fs, fi, mi, oi) && ValidAddress(fs, fj, mj, oj)
    requires AddressBefore(fi, mi, oi, fj, mj, oj)
    ensures EntryIndex(fs, fi, mi, oi) < EntryIndex(fs, fj, mj, oj)
  {
    var ms := MinorsOf(fs[fi]);
    MinorEntryAt(0, ms, mi, oi);
    if fi < fj {
      assert fs[..fj] == fs[..fi] + [fs[fi]] + fs[fi + 1..fj];
      FragmentCountAppend(fs[..fi] + [fs[fi]], fs[fi + 1..fj]);
      FragmentCountAppend(fs[..fi], [fs[fi]]);
      assert FragmentCount([fs[fi]]) == MinorCount(ms) by {
        assert [fs[fi]][1..] == [];
      }
    } else if mi < mj {
      assert ms[..mj] == ms[..mi] + [ms[mi]] + ms[mi + 1..mj];
      MinorCountAppend(ms[..mi] + [ms[mi]], ms[mi + 1..mj]);
      MinorCountAppend(ms[..mi], [ms[mi]]);
      assert MinorCount([ms[mi]]) == |OperatorsOf(ms[mi])| by {
        assert [ms[mi]][1..] == [];
      }
    }
  }

  /** Appending fragments appends their walks: the walk never reorders across fragments. */
  lemma {:induction false} FragmentEntriesAppend(a: seq<FragmentProfile>, b: seq<FragmentProfile>)
    ensures FragmentEntries(a + b) == FragmentEntries(a) + FragmentEntries(b)
    decreases |a|
  {
    if |a| == 0 {
      assert a + b == b;
    } else {
      assert (a + b)[1..] == a[1..] + b;
      FragmentEntriesAppend(a[1..], b);
    }
  }

  lemma {:induction false} MinorEntriesAppend(fid: nat, a: seq<MinorFragmentProfile>, b: seq<MinorFragmentProfile>)
    ensures MinorEntries(fid, a + b) == MinorEntries(fid, a) + MinorEntries(fid, b)
    decreases |a|
  {
    if |a| == 0 {
      assert a + b == b;
    } else {
      assert (a + b)[1..] == a[1..] + b;
      MinorEntriesAppend(fid, a[1..], b);
    }
  }

  lemma {:induction false} LocateOperatorsAppend(fid: nat, mid: nat, a: seq<OperatorProfile>, b: seq<OperatorProfile>)
    ensures LocateOperators(fid, mid, a + b) == LocateOperators(fid, mid, a) + LocateOperators(fid, mid, b)
    decreases |a|
  {
    if |a| == 0 {
      assert a + b == b;
    } else {
      assert (a + b)[1..] == a[1..] + b;
      LocateOperatorsAppend(fid, mid, a[1..], b);
    }
  }
}
