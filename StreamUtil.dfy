/** Selection among mutually exclusive optional alternatives, by the intended
    contract of the project's StreamUtil helpers: `getOne` wants exactly one
    present value, `getOneAsOptional` and `maybeOne` at most one. */
module StreamUtil {
  import opened Results

  /** How many of the alternatives are present. */
  function PresentCount<T>(alts: seq<Option<T>>): (n: nat)
    ensures n <= |alts|
    ensures n == 0 <==> forall i :: 0 <= i < |alts| ==> alts[i].None?
  {
    if alts == [] then 0
    else (if alts[0].Some? then 1 else 0) + PresentCount(alts[1..])
  }

  /** One for a present alternative, zero for an absent one. */
  function Present<T>(o: Option<T>): (n: nat)
    ensures n == 1 <==> o.Some?
    ensures n == 0 <==> o.None?
  {
    if o.Some? then 1 else 0
  }

  /** The count of a group of two, three or four alternatives written out. */
  lemma PresentCountOfTwo<T>(a: Option<T>, b: Option<T>)
    ensures PresentCount([a, b]) == Present(a) + Present(b)
  {
    assert [a, b][1..] == [b];
  }

  lemma PresentCountOfThree<T>(a: Option<T>, b: Option<T>, c: Option<T>)
    ensures PresentCount([a, b, c]) == Present(a) + Present(b) + Present(c)
  {
    assert [a, b, c][1..] == [b, c];
    PresentCountOfTwo(b, c);
  }

  lemma PresentCountOfFour<T>(a: Option<T>, b: Option<T>, c: Option<T>, d: Option<T>)
    ensures PresentCount([a, b, c, d]) == Present(a) + Present(b) + Present(c) + Present(d)
  {
    assert [a, b, c, d][1..] == [b, c, d];
    PresentCountOfThree(b, c, d);
  }

  /** The first present alternative, if any. */
  function FirstPresent<T>(alts: seq<Option<T>>): (r: Option<T>)
    ensures r.Some? <==> PresentCount(alts) > 0
    ensures r.Some? ==> r in alts
  {
    if alts == [] then None
    else if alts[0].Some? then alts[0]
    else FirstPresent(alts[1..])
  }

  /** `StreamUtil.getOneAsOptional`: empty when nothing is present, the value when
      exactly one is, an error when several are. */
  function GetOneAsOptional<T>(alts: seq<Option<T>>): (r: Result<Option<T>, Error>)
    ensures r.Failure? <==> PresentCount(alts) > 1
    ensures r.Failure? ==> r.error == AmbiguousAlternative
    ensures r == Success(None) <==> PresentCount(alts) == 0
    ensures r.Success? && r.value.Some? ==> r.value in alts
  {
    var n := PresentCount(alts);
    if n == 0 then Success(None)
    else if n == 1 then Success(FirstPresent(alts))
    else Failure(AmbiguousAlternative)
  }

  /** `StreamUtil.getOne`: the value of the one present alternative; an error
      when none or several are present. */
  function GetOne<T>(alts: seq<Option<T>>): (r: Result<T, Error>)
    ensures r.Success? <==> PresentCount(alts) == 1
    ensures r == Failure(MissingAlternative) <==> PresentCount(alts) == 0
    ensures r == Failure(AmbiguousAlternative) <==> PresentCount(alts) > 1
    ensures r.Success? ==> Some(r.value) in alts
  {
    if PresentCount(alts) == 0 then Failure(MissingAlternative)
    else
      var o :- GetOneAsOptional(alts);
      Success(o.value)
  }

  /** `StreamUtil.maybeOne` over the two alternatives the converter passes it. */
  function MaybeOne<T>(first: Option<T>, second: Option<T>): (r: Result<Option<T>, Error>)
    ensures first.None? && second.None? ==> r == Success(None)
    ensures first.Some? && second.None? ==> r == Success(first)
    ensures first.None? && second.Some? ==> r == Success(second)
    ensures first.Some? && second.Some? ==> r == Failure(AmbiguousAlternative)
  {
    var alts := [first, second];
    assert alts[1..] == [second] && alts[1..][1..] == [];
    GetOneAsOptional(alts)
  }

  /** The alternative at index `i` is the only one present. */
  ghost predicate OnlyPresent<T>(alts: seq<Option<T>>, i: nat)
  {
    i < |alts| && alts[i].Some? && forall j :: 0 <= j < |alts| && j != i ==> alts[j].None?
  }

  lemma {:induction false} OnlyPresentCount<T>(alts: seq<Option<T>>, i: nat)
    requires OnlyPresent(alts, i)
    ensures PresentCount(alts) == 1
    ensures FirstPresent(alts) == alts[i]
  {
    if i == 0 {
      assert PresentCount(alts[1..]) == 0;
    } else {
      assert alts[0].None?;
      assert OnlyPresent(alts[1..], i - 1);
      OnlyPresentCount(alts[1..], i - 1);
    }
  }

  /** Selecting from a group in which exactly one alternative is present yields
      that alternative, under both helpers. */
  lemma SelectsOnlyPresent<T>(alts: seq<Option<T>>, i: nat)
    requires OnlyPresent(alts, i)
    ensures GetOne(alts) == Success(alts[i].value)
    ensures GetOneAsOptional(alts) == Success(alts[i])
  {
    OnlyPresentCount(alts, i);
  }

  /** Two present alternatives make every selection fail. */
  lemma {:induction false} TwoPresentIsAmbiguous<T>(alts: seq<Option<T>>, i: nat, j: nat)
    requires i < j < |alts| && alts[i].Some? && alts[j].Some?
    ensures PresentCount(alts) >= 2
    ensures GetOne(alts) == Failure(AmbiguousAlternative)
    ensures GetOneAsOptional(alts) == Failure(AmbiguousAlternative)
  {
    if i == 0 {
      assert alts[1..][j - 1] == alts[j];
      assert PresentCount(alts[1..]) > 0;
    } else {
      TwoPresentIsAmbiguous(alts[1..], i - 1, j - 1);
    }
  }
}
