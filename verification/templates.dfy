/**
 How `submagic_list_templates` groups template names: those whose lower-case
 form contains "hormozi", then the rest, each group sorted.
 */
module Templates {
  import opened Collate

  /** The keyword that marks the Hormozi series. */
  const Keyword: string := "hormozi"

  /** `'hormozi' in t.lower()` */
  predicate IsHormozi(t: string) {
    Contains(Lower(t), Keyword)
  }

  /** `[t for t in templates if ('hormozi' in t.lower()) == hormozi]`, in input order. */
  function Select(ts: seq<string>, hormozi: bool): (r: seq<string>)
    ensures forall k | 0 <= k < |r| :: IsHormozi(r[k]) == hormozi
    ensures forall k | 0 <= k < |ts| :: IsHormozi(ts[k]) == hormozi ==> ts[k] in r
    ensures multiset(r) <= multiset(ts)
  {
    if |ts| == 0 then []
    else
      assert ts == [ts[0]] + ts[1..];
      var rest := Select(ts[1..], hormozi);
      assert forall k | 1 <= k < |ts| :: ts[k] == ts[1..][k - 1];
      if IsHormozi(ts[0]) == hormozi then [ts[0]] + rest else rest
  }

  /** Together the two selections hold every template exactly as often as the input does. */
  lemma {:induction false} SelectSplits(ts: seq<string>)
    ensures multiset(Select(ts, true)) + multiset(Select(ts, false)) == multiset(ts)
  {
    if |ts| > 0 {
      assert ts == [ts[0]] + ts[1..];
      SelectSplits(ts[1..]);
    }
  }

  /** The two lists the tool prints: the Hormozi series and the other styles, each sorted. */
  function Groups(ts: seq<string>): (seq<string>, seq<string>) {
    (Sort(Select(ts, true)), Sort(Select(ts, false)))
  }

  /** The two groups, one after the other, hold every template exactly as often as the input does. */
  lemma GroupsPermute(ts: seq<string>)
    ensures multiset(Groups(ts).0 + Groups(ts).1) == multiset(ts)
  {
    var (h, o) := Groups(ts);
    SelectSplits(ts);
    assert multiset(h + o) == multiset(h) + multiset(o);
  }

  /**
   Every template lands in exactly one group, according to the keyword; the
   groups together are a permutation of the input; each is in Python's sorted
   order, and is the only list that is.
   */
  lemma GroupsPartition(ts: seq<string>)
    ensures var (h, o) := Groups(ts);
      && Sorted(h) && Sorted(o)
      && multiset(h) + multiset(o) == multiset(ts)
      && (forall t :: t in h <==> t in ts && IsHormozi(t))
      && (forall t :: t in o <==> t in ts && !IsHormozi(t))
      && (forall h' | Sorted(h') && multiset(h') == multiset(Select(ts, true)) :: h' == h)
      && (forall o' | Sorted(o') && multiset(o') == multiset(Select(ts, false)) :: o' == o)
  {
    var (h, o) := Groups(ts);
    SelectSplits(ts);
    forall t ensures t in h <==> t in ts && IsHormozi(t) {
      assert t in h <==> t in multiset(Select(ts, true));
      if t in ts { var k :| 0 <= k < |ts| && ts[k] == t; }
    }
    forall t ensures t in o <==> t in ts && !IsHormozi(t) {
      assert t in o <==> t in multiset(Select(ts, false));
      if t in ts { var k :| 0 <= k < |ts| && ts[k] == t; }
    }
    forall h' | Sorted(h') && multiset(h') == multiset(Select(ts, true)) ensures h' == h {
      SortedPermutationUnique(h', h);
    }
    forall o' | Sorted(o') && multiset(o') == multiset(Select(ts, false)) ensures o' == o {
      SortedPermutationUnique(o', o);
    }
  }
}
