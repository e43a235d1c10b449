/** The source catalog of the resolution switcher: the `res` attribute, the
    comparator `compareResolutions`, the sort that `updateSrc` applies with it,
    and the default-source policy `chooseSrc`. */
module Sources {
  import opened Common

  /** The `res` attribute of a `<source>` tag: missing (`undefined`), the empty
      string, or a decimal integer such as "720". */
  datatype Res = Unset | Blank | Num(value: int) {
    /** JavaScript truthiness of the attribute: `!a.res` is false exactly here. */
    predicate Present() { Num? }
  }

  /** The resolution named by the player option `defaultRes: "512"`. */
  const DefaultRes: Res := Num(512)

  /** One rendition `{src, res, type, label}`. The code compares sources with
      `===`, that is by object identity, so a source is an object with constant
      fields rather than a value. */
  class Source {
    const src: string
    const res: Res
    const kind: string
    /** `None` when the tag has no `label` attribute (`undefined`). */
    const displayLabel: Option<string>

    constructor (src: string, res: Res, kind: string, displayLabel: Option<string>)
      ensures this.src == src && this.res == res && this.kind == kind && this.displayLabel == displayLabel
    {
      this.src := src;
      this.res := res;
      this.kind := kind;
      this.displayLabel := displayLabel;
    }
  }

  /** `compareResolutions(a, b)`: negative when `a` must come first, positive
      when `b` must, zero when the pair is left as it is. */
  function CompareResolutions(a: Source, b: Source): (r: int)
    ensures r < 0 <==> a.res.Present() && b.res.Present() && a.res.value > b.res.value
    ensures r > 0 <==> a.res.Present() && b.res.Present() && a.res.value < b.res.value
    ensures !a.res.Present() || !b.res.Present() ==> r == 0
  {
    if !a.res.Present() || !b.res.Present() then 0 else b.res.value - a.res.value
  }

  predicate AllPresent(s: seq<Source>) {
    forall i :: 0 <= i < |s| ==> s[i].res.Present()
  }

  /** Descending order of resolution, for a list where every `res` is present. */
  predicate NonIncreasing(s: seq<Source>)
    requires AllPresent(s)
  {
    forall i, j :: 0 <= i < j < |s| ==> s[i].res.value >= s[j].res.value
  }

  /** No pair of the list is out of order for the comparator. */
  predicate InComparatorOrder(s: seq<Source>) {
    forall i, j :: 0 <= i < j < |s| ==> CompareResolutions(s[i], s[j]) <= 0
  }

  /** One step of a stable insertion sort: `x` moves in front of the elements
      at the back of `r` that compare strictly after it, and stops at the
      first one that does not. */
  function InsertBack(r: seq<Source>, x: Source): (t: seq<Source>)
    ensures |t| == |r| + 1
    ensures multiset(t) == multiset(r) + multiset{x}
  {
    if |r| == 0 then [x]
    else if CompareResolutions(r[|r| - 1], x) > 0 then
      assert r == r[..|r| - 1] + [r[|r| - 1]];
      InsertBack(r[..|r| - 1], x) + [r[|r| - 1]]
    else r + [x]
  }

  /** Every source of `s` is ranked at `v` or above. */
  predicate AtLeast(s: seq<Source>, v: int) {
    forall i :: 0 <= i < |s| ==> s[i].res.Present() && s[i].res.value >= v
  }

  lemma AppendKeepsDescending(s: seq<Source>, x: Source)
    requires AllPresent(s) && NonIncreasing(s) && x.res.Present() && AtLeast(s, x.res.value)
    ensures AllPresent(s + [x]) && NonIncreasing(s + [x])
  {
    var t := s + [x];
    forall i, j | 0 <= i < j < |t| ensures t[i].res.value >= t[j].res.value {
      if j < |s| {
        assert t[i] == s[i] && t[j] == s[j];
      } else {
        assert t[i] == s[i] && t[j] == x;
      }
    }
  }

  /** In a descending list every source is ranked at least as high as the last one. */
  lemma LastIsLowest(r: seq<Source>)
    requires |r| > 0 && AllPresent(r) && NonIncreasing(r)
    ensures AtLeast(r, r[|r| - 1].res.value)
  {
  }

  /** Inserting a ranked source into a list in descending order keeps it in descending order. */
  lemma {:induction false} InsertBackKeepsDescending(r: seq<Source>, x: Source)
    requires AllPresent(r) && x.res.Present() && NonIncreasing(r)
    ensures AllPresent(InsertBack(r, x)) && NonIncreasing(InsertBack(r, x))
  {
    if |r| == 0 {
      assert InsertBack(r, x) == [x];
    } else if CompareResolutions(r[|r| - 1], x) > 0 {
      var front, last := r[..|r| - 1], r[|r| - 1];
      assert AllPresent(front) && NonIncreasing(front);
      InsertBackKeepsDescending(front, x);
      LastIsLowest(r);
      InsertBehindLowerKeepsDescending(front, x, last);
    } else {
      LastIsLowest(r);
      assert InsertBack(r, x) == r + [x];
      AppendKeepsDescending(r, x);
    }
  }

  /** The step of InsertBackKeepsDescending where `x` moves to the front of `last`. */
  lemma InsertBehindLowerKeepsDescending(front: seq<Source>, x: Source, last: Source)
    requires AllPresent(InsertBack(front, x)) && NonIncreasing(InsertBack(front, x))
    requires last.res.Present() && x.res.Present() && x.res.value > last.res.value
    requires AtLeast(front + [last], last.res.value)
    ensures AllPresent(InsertBack(front, x) + [last]) && NonIncreasing(InsertBack(front, x) + [last])
  {
    var t' := InsertBack(front, x);
    assert AtLeast(t', last.res.value) by {
      forall i | 0 <= i < |t'| ensures t'[i].res.Present() && t'[i].res.value >= last.res.value {
        MemberOfInsertBack(front, x, t'[i]);
        if t'[i] != x {
          var k :| 0 <= k < |front| && front[k] == t'[i];
          assert (front + [last])[k] == front[k];
        }
      }
    }
    AppendKeepsDescending(t', last);
  }

  /** Whatever the insertion yields is the inserted source or one that was already there. */
  lemma MemberOfInsertBack(r: seq<Source>, x: Source, y: Source)
    requires y in InsertBack(r, x)
    ensures y == x || y in r
  {
    assert y in multiset(InsertBack(r, x));
  }

  /** `src.sort(compareResolutions)` in `updateSrc`. The comparator is not a
      consistent order once a `res` is missing, so the outcome depends on the
      algorithm; it is modelled as a stable insertion sort. */
  function SortSources(s: seq<Source>): (r: seq<Source>)
    ensures |r| == |s|
    ensures multiset(r) == multiset(s)
    ensures AllPresent(s) ==> AllPresent(r) && NonIncreasing(r)
  {
    if |s| == 0 then []
    else
      var front := SortSources(s[..|s| - 1]);
      assert s == s[..|s| - 1] + [s[|s| - 1]];
      if AllPresent(s) then
        assert AllPresent(s[..|s| - 1]);
        InsertBackKeepsDescending(front, s[|s| - 1]);
        InsertBack(front, s[|s| - 1])
      else
        InsertBack(front, s[|s| - 1])
  }

  lemma OrderedPrefix(s: seq<Source>)
    requires |s| > 0 && InComparatorOrder(s)
    ensures InComparatorOrder(s[..|s| - 1])
  {
    var front := s[..|s| - 1];
    forall i, j | 0 <= i < j < |front| ensures CompareResolutions(front[i], front[j]) <= 0 {
      assert front[i] == s[i] && front[j] == s[j];
    }
  }

  lemma InsertBehindNoLater(r: seq<Source>, x: Source)
    requires |r| > 0 ==> CompareResolutions(r[|r| - 1], x) <= 0
    ensures InsertBack(r, x) == r + [x]
  {
  }

  /** The last source of the list is inserted into the sorted rest. */
  lemma SortUnfold(s: seq<Source>)
    requires |s| > 0
    ensures SortSources(s) == InsertBack(SortSources(s[..|s| - 1]), s[|s| - 1])
  {
  }

  lemma LastPairInOrder(s: seq<Source>)
    requires |s| > 1 && InComparatorOrder(s)
    ensures CompareResolutions(s[|s| - 2], s[|s| - 1]) <= 0
  {
  }

  /** A list whose front the sort leaves alone, and whose last source no
      source of the front must follow, is left alone as a whole. */
  lemma SortAppendInOrder(s: seq<Source>)
    requires |s| > 0 && SortSources(s[..|s| - 1]) == s[..|s| - 1]
    requires |s| > 1 ==> CompareResolutions(s[|s| - 2], s[|s| - 1]) <= 0
    ensures SortSources(s) == s
  {
    var front, last := s[..|s| - 1], s[|s| - 1];
    SortUnfold(s);
    if |front| > 0 {
      assert front[|front| - 1] == s[|s| - 2];
    }
    InsertBehindNoLater(front, last);
    assert s == front + [last];
  }

  /** A list that is already in comparator order comes out of the sort as it went in. */
  lemma {:induction false} SortKeepsOrderedInput(s: seq<Source>)
    requires InComparatorOrder(s)
    ensures SortSources(s) == s
  {
    if |s| > 0 {
      OrderedPrefix(s);
      SortKeepsOrderedInput(s[..|s| - 1]);
      if |s| > 1 {
        LastPairInOrder(s);
      }
      SortAppendInOrder(s);
    }
  }

  /** With every `res` present, sorting twice gives what sorting once gives. */
  lemma SortIdempotent(s: seq<Source>)
    requires AllPresent(s)
    ensures SortSources(SortSources(s)) == SortSources(s)
  {
    var r := SortSources(s);
    assert InComparatorOrder(r) by {
      forall i, j | 0 <= i < j < |r| ensures CompareResolutions(r[i], r[j]) <= 0 {
        assert r[i].res.value >= r[j].res.value;
      }
    }
    SortKeepsOrderedInput(r);
  }

  /** A list in which no source has a usable `res` is not reordered at all. */
  lemma SortLeavesUnrankedAlone(s: seq<Source>)
    requires forall i :: 0 <= i < |s| ==> !s[i].res.Present()
    ensures SortSources(s) == s
  {
    SortKeepsOrderedInput(s);
  }

  /** The sources of `s` whose `res` is `d`, in list order. */
  function Keep(s: seq<Source>, d: Res): (r: seq<Source>)
    ensures |r| <= |s|
    ensures forall i :: 0 <= i < |r| ==> r[i] in s && r[i].res == d
    ensures (forall i :: 0 <= i < |s| ==> s[i].res != d) ==> r == []
  {
    if |s| == 0 then []
    else
      var front, last := s[..|s| - 1], s[|s| - 1];
      assert forall i :: 0 <= i < |front| ==> front[i] == s[i];
      Keep(front, d) + (if last.res == d then [last] else [])
  }

  lemma KeepAppend(a: seq<Source>, y: Source, d: Res)
    ensures Keep(a + [y], d) == Keep(a, d) + (if y.res == d then [y] else [])
  {
    assert (a + [y])[..|a|] == a;
  }

  /** The insertion step never moves a source past one with the same `res`. */
  lemma {:induction false} KeepInsertBack(r: seq<Source>, x: Source, d: Res)
    ensures Keep(InsertBack(r, x), d) == Keep(r, d) + (if x.res == d then [x] else [])
  {
    if |r| == 0 {
      assert InsertBack(r, x) == [] + [x];
      KeepAppend([], x, d);
    } else if CompareResolutions(r[|r| - 1], x) > 0 {
      var front, last := r[..|r| - 1], r[|r| - 1];
      var t := InsertBack(front, x);
      assert InsertBack(r, x) == t + [last];
      assert r == front + [last];
      KeepInsertBack(front, x, d);
      KeepAppend(t, last, d);
      KeepAppend(front, last, d);
      assert last.res != x.res;
    } else {
      assert InsertBack(r, x) == r + [x];
      KeepAppend(r, x, d);
    }
  }

  /** The sort is stable: the sources sharing any one `res` keep their
      catalog order. */
  lemma {:induction false} SortIsStable(s: seq<Source>, d: Res)
    ensures Keep(SortSources(s), d) == Keep(s, d)
  {
    if |s| > 0 {
      var front, last := s[..|s| - 1], s[|s| - 1];
      SortIsStable(front, d);
      KeepInsertBack(SortSources(front), last, d);
    }
  }

  /** The first source with `res` equal to `d` heads the sources kept for `d`. */
  lemma {:induction false} KeepStartsAtFirstMatch(s: seq<Source>, d: Res, k: nat)
    requires k < |s| && s[k].res == d && forall j :: 0 <= j < k ==> s[j].res != d
    ensures |Keep(s, d)| > 0 && Keep(s, d)[0] == s[k]
  {
    var front := s[..|s| - 1];
    if k == |s| - 1 {
      assert Keep(front, d) == [];
    } else {
      KeepStartsAtFirstMatch(front, d, k);
    }
  }

  /** `chooseSrc` as a specification: the first source, in list order, whose
      `res` equals the configured default, and otherwise `sources[0]`, which is
      `undefined` (here `null`) for an empty list. */
  function DefaultSource(sources: seq<Source>, defaultRes: Res): (r: Source?)
    ensures r == null <==> |sources| == 0
    ensures forall k :: (0 <= k < |sources| && sources[k].res == defaultRes &&
                         (forall j :: 0 <= j < k ==> sources[j].res != defaultRes)) ==> r == sources[k]
    ensures |sources| > 0 && (forall k :: 0 <= k < |sources| ==> sources[k].res != defaultRes) ==>
              r == sources[0]
  {
    var k := FirstIndex(sources, (x: Source) => x.res == defaultRes);
    if k < |sources| then sources[k]
    else if |sources| > 0 then sources[0]
    else null
  }

  /** `chooseSrc(sources)`: an index loop that returns at the first match. */
  method ChooseSrc(sources: seq<Source>, defaultRes: Res) returns (r: Source?)
    ensures r == DefaultSource(sources, defaultRes)
  {
    var s := 0;
    while s < |sources|
      invariant 0 <= s <= |sources|
      invariant forall j :: 0 <= j < s ==> sources[j].res != defaultRes
    {
      if sources[s].res == defaultRes {
        return sources[s];
      }
      s := s + 1;
    }
    if |sources| > 0 {
      r := sources[0];
    } else {
      r := null;
    }
  }

  /** What `updateSrc` selects: a member of the list it was given, and one
      carrying the default resolution whenever any source of the list does. */
  lemma SortedChoiceHonoursDefault(s: seq<Source>, defaultRes: Res)
    requires |s| > 0
    ensures DefaultSource(SortSources(s), defaultRes) in s
    ensures (exists k :: 0 <= k < |s| && s[k].res == defaultRes) ==>
              DefaultSource(SortSources(s), defaultRes).res == defaultRes
  {
    var r := SortSources(s);
    var c := DefaultSource(r, defaultRes);
    var k := FirstIndex(r, (x: Source) => x.res == defaultRes);
    assert c == (if k < |r| then r[k] else r[0]);
    assert c in multiset(r);
    if exists k :: 0 <= k < |s| && s[k].res == defaultRes {
      var m :| 0 <= m < |s| && s[m].res == defaultRes;
      assert s[m] in multiset(s);
      assert s[m] in r;
      var i :| 0 <= i < |r| && r[i] == s[m];
      assert k <= i;
    }
  }

  /** When some source carries the default `res`, sorting does not change
      which one is chosen: among equal sources the first in catalog order. */
  lemma SortKeepsDefaultChoice(s: seq<Source>, d: Res)
    requires exists k :: 0 <= k < |s| && s[k].res == d
    ensures DefaultSource(SortSources(s), d) == DefaultSource(s, d)
  {
    var r := SortSources(s);
    var k := FirstIndex(s, (x: Source) => x.res == d);
    KeepStartsAtFirstMatch(s, d, k);
    SortIsStable(s, d);
    assert Keep(r, d)[0] in r;
    var k' := FirstIndex(r, (x: Source) => x.res == d);
    KeepStartsAtFirstMatch(r, d, k');
  }

  /** The three sources 720, 512 and 1080 sort to 1080, 720, 512 and the
      default 512 is chosen. */
  lemma ExampleDefaultChosen(a: Source, b: Source, c: Source)
    requires a.res == Num(720) && b.res == Num(512) && c.res == Num(1080)
    ensures SortSources([a, b, c]) == [c, a, b]
    ensures DefaultSource(SortSources([a, b, c]), DefaultRes) == b
  {
    assert [a, b, c][..2] == [a, b];
    assert [a, b][..1] == [a];
    assert SortSources([a]) == [a];
    assert SortSources([a, b]) == [a, b];
    assert [a, b][..1] == [a];
    assert InsertBack([a, b], c) == InsertBack([a], c) + [b];
    assert InsertBack([a], c) == [c, a];
  }

  /** A source without `res` stops the comparator from moving anything across
      it: 720, (no res), 1080 stays as it is, and with no 512 on offer the
      first source is chosen. */
  lemma ExampleUnrankedBlocksReordering(a: Source, b: Source, c: Source)
    requires a.res == Num(720) && b.res == Unset && c.res == Num(1080)
    ensures SortSources([a, b, c]) == [a, b, c]
    ensures DefaultSource(SortSources([a, b, c]), DefaultRes) == a
  {
    assert [a, b, c][..2] == [a, b];
    assert [a, b][..1] == [a];
    assert SortSources([a]) == [a];
    assert SortSources([a, b]) == [a, b];
  }
}
