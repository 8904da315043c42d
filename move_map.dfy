/** The list plumbing the folder rebuilds child lists with. `move_map` folds
    each element into exactly one result; `move_flat_map` folds each element
    into zero, one or many results (a `SmallVector` or an `Option`) and
    splices them into one list. Both visit the elements from first to last; a
    fatal check failing on one element stops the whole fold, so a list fold
    reports the FIRST failing element's error. */
module MoveMap {
  import opened Wrappers

  /** All per-element results in order, or the first failure among them. */
  function Collect<T, E>(rs: seq<Result<T, E>>): (r: Result<seq<T>, E>)
    ensures r.Success? <==> forall i :: 0 <= i < |rs| ==> rs[i].Success?
    ensures r.Success? ==> |r.value| == |rs|
    ensures r.Success? ==> forall i :: 0 <= i < |rs| ==> r.value[i] == rs[i].value
    ensures r.Failure? ==>
      exists k :: 0 <= k < |rs| && rs[k].Failure? && r.error == rs[k].error &&
                  forall i :: 0 <= i < k ==> rs[i].Success?
  {
    if |rs| == 0 then Success([])
    else
      var x :- rs[0];
      var xs :- Collect(rs[1..]);
      Success([x] + xs)
  }

  /** The number of elements of all the lists together. */
  function TotalLength<T>(ss: seq<seq<T>>): nat
  {
    if |ss| == 0 then 0 else |ss[0]| + TotalLength(ss[1..])
  }

  /** The lists spliced together, first to last. */
  function Concat<T>(ss: seq<seq<T>>): (r: seq<T>)
    ensures |r| == TotalLength(ss)
  {
    if |ss| == 0 then [] else ss[0] + Concat(ss[1..])
  }

  /** Where the results of element `i` start in the spliced list. */
  function Offset<T>(ss: seq<seq<T>>, i: nat): nat
    requires i <= |ss|
  {
    TotalLength(ss[..i])
  }

  /** Per-element results that all succeeded, spliced in input order. */
  function FlatCollect<T, E>(rs: seq<Result<seq<T>, E>>): (r: Result<seq<T>, E>)
    ensures r.Success? <==> forall i :: 0 <= i < |rs| ==> rs[i].Success?
  {
    var ss :- Collect(rs);
    Success(Concat(ss))
  }

  /** An optional result as a list of zero or one results. */
  function OptionToSeq<T, E>(r: Result<Option<T>, E>): (s: Result<seq<T>, E>)
    ensures s.Success? <==> r.Success?
    ensures s.Success? ==> s.value == r.value.ToSeq()
  {
    var o :- r;
    Success(o.ToSeq())
  }

  lemma {:induction false} TotalLengthAppend<T>(a: seq<seq<T>>, b: seq<seq<T>>)
    ensures TotalLength(a + b) == TotalLength(a) + TotalLength(b)
  {
    if |a| == 0 {
      assert a + b == b;
    } else {
      assert (a + b)[1..] == a[1..] + b;
      TotalLengthAppend(a[1..], b);
    }
  }

  /** Splicing is a homomorphism: splicing a concatenation of two lists of
      results is the concatenation of their splicings, so the results of
      earlier inputs always come before those of later inputs. */
  lemma {:induction false} ConcatAppend<T>(a: seq<seq<T>>, b: seq<seq<T>>)
    ensures Concat(a + b) == Concat(a) + Concat(b)
  {
    if |a| == 0 {
      assert a + b == b;
    } else {
      assert (a + b)[1..] == a[1..] + b;
      ConcatAppend(a[1..], b);
    }
  }

  /** Result `j` of element `i` sits at `Offset(ss, i) + j` of the spliced list,
      and the offsets grow by the length of each element's results. */
  lemma {:induction false} ConcatAt<T>(ss: seq<seq<T>>, i: nat, j: nat)
    requires i < |ss| && j < |ss[i]|
    ensures Offset(ss, i + 1) == Offset(ss, i) + |ss[i]|
    ensures Offset(ss, i) + j < |Concat(ss)|
    ensures Concat(ss)[Offset(ss, i) + j] == ss[i][j]
  {
    assert ss == ss[..i] + [ss[i]] + ss[i + 1..];
    assert ss[..i + 1] == ss[..i] + [ss[i]];
    TotalLengthAppend(ss[..i], [ss[i]]);
    assert TotalLength([ss[i]]) == |ss[i]| by {
      assert [ss[i]][1..] == [];
    }
    ConcatAppend(ss[..i] + [ss[i]], ss[i + 1..]);
    ConcatAppend(ss[..i], [ss[i]]);
    assert Concat([ss[i]]) == ss[i] by {
      assert [ss[i]][1..] == [];
    }
  }

  /** When every element yields exactly its own singleton list, splicing gives
      back the elements themselves. */
  lemma {:induction false} ConcatSingletons<T>(ss: seq<seq<T>>, xs: seq<T>)
    requires |ss| == |xs|
    requires forall i :: 0 <= i < |ss| ==> ss[i] == [xs[i]]
    ensures Concat(ss) == xs
  {
    if |ss| > 0 {
      ConcatSingletons(ss[1..], xs[1..]);
      assert xs == [xs[0]] + xs[1..];
    }
  }

  /** When element `i` folds to exactly `xs[i]`, the whole list folds to `xs`. */
  lemma CollectExactly<T, E>(rs: seq<Result<T, E>>, xs: seq<T>)
    requires |rs| == |xs|
    requires forall i :: 0 <= i < |rs| ==> rs[i] == Success(xs[i])
    ensures Collect(rs) == Success(xs)
  {
    assert Collect(rs).value == xs;
  }

  /** When element `i` folds to the singleton `[xs[i]]`, the spliced list is `xs`. */
  lemma FlatCollectSingletons<T, E>(rs: seq<Result<seq<T>, E>>, xs: seq<T>)
    requires |rs| == |xs|
    requires forall i :: 0 <= i < |rs| ==> rs[i] == Success([xs[i]])
    ensures FlatCollect(rs) == Success(xs)
  {
    ConcatSingletons(Collect(rs).value, xs);
  }

  /** `FlatCollect` succeeds exactly when every element does, and then its
      result has one slot per element result, in input order. */
  lemma FlatCollectAt<T, E>(rs: seq<Result<seq<T>, E>>, i: nat, j: nat)
    requires forall k :: 0 <= k < |rs| ==> rs[k].Success?
    requires i < |rs| && j < |rs[i].value|
    ensures FlatCollect(rs).Success?
    ensures var ss := seq(|rs|, k requires 0 <= k < |rs| => rs[k].value);
            |FlatCollect(rs).value| == TotalLength(ss) &&
            Offset(ss, i) + j < TotalLength(ss) &&
            FlatCollect(rs).value[Offset(ss, i) + j] == rs[i].value[j]
  {
    var ss := seq(|rs|, k requires 0 <= k < |rs| => rs[k].value);
    assert Collect(rs).value == ss;
    ConcatAt(ss, i, j);
  }

  /** When element `i` folds to the list `ss[i]`, the whole list folds to
      their splicing. */
  lemma FlatCollectOf<T, E>(rs: seq<Result<seq<T>, E>>, ss: seq<seq<T>>)
    requires |rs| == |ss|
    requires forall i :: 0 <= i < |rs| ==> rs[i] == Success(ss[i])
    ensures FlatCollect(rs) == Success(Concat(ss))
  {
    assert Collect(rs).value == ss;
  }

  /** The first failing element decides the error of the whole list. */
  lemma CollectFirstFailure<T, E>(rs: seq<Result<T, E>>, k: nat)
    requires k < |rs| && rs[k].Failure?
    requires forall i :: 0 <= i < k ==> rs[i].Success?
    ensures Collect(rs) == Failure(rs[k].error)
  {
    var k' :| 0 <= k' < |rs| && rs[k'].Failure? && Collect(rs).error == rs[k'].error &&
              forall i :: 0 <= i < k' ==> rs[i].Success?;
    assert k' == k;
  }

  /** The same for a list whose elements fold to lists. */
  lemma FlatCollectFirstFailure<T, E>(rs: seq<Result<seq<T>, E>>, k: nat)
    requires k < |rs| && rs[k].Failure?
    requires forall i :: 0 <= i < k ==> rs[i].Success?
    ensures FlatCollect(rs) == Failure(rs[k].error)
  {
    CollectFirstFailure(rs, k);
  }

  /** Splicing a single list gives that list. */
  lemma ConcatSingle<T>(s: seq<T>)
    ensures Concat([s]) == s
  {
    assert [s][1..] == [];
  }
}
