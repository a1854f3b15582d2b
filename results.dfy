/** Failure-compatible wrappers used by every script model.

    The scripts signal failure by raising Python exceptions (or by calling
    sys.exit), which ends the run. Here each such exit becomes an `Error`
    value carried by `Result`; the first failure met is the one returned. */
module Results {

  /** The kinds of failure the scripts can run into. */
  datatype Error =
    | KeyMissing       // KeyError: a dictionary lookup on an absent key
    | IndexOutOfRange  // IndexError: a list index past the end
    | NotANumber       // ValueError from int() / float()
    | DivisionByZero   // ZeroDivisionError
    | TypeMismatch     // TypeError: arithmetic or concatenation on the wrong type
    | Unbound          // UnboundLocalError: a variable read before any assignment
    | EmptySetting     // sys.exit on an empty configuration setting
    | StoreError       // sys.exit when the store answers a search with a status other than 200

  datatype Option<+T> = None | Some(value: T)

  datatype Result<+T> = Ok(value: T) | Fail(error: Error) {
    predicate IsFailure() { Fail? }

    function PropagateFailure<U>(): Result<U>
      requires Fail?
    {
      Fail(error)
    }

    function Extract(): T
      requires Ok?
    {
      value
    }
  }

  /** An optional value, or the given failure when it is absent. */
  function Need<T>(o: Option<T>, e: Error): (r: Result<T>)
    ensures r.Ok? <==> o.Some?
    ensures r.Ok? ==> r.value == o.value
    ensures r.Fail? ==> r.error == e
  {
    match o
    case Some(v) => Ok(v)
    case None => Fail(e)
  }

  /** Every element's result, in order, or the first failure met: what a
      loop that appends each element's result, and whose body may raise,
      returns. */
  function Collect<T, U>(f: T -> Result<U>, xs: seq<T>): (r: Result<seq<U>>)
    ensures r.Ok? ==> |r.value| == |xs|
  {
    if xs == [] then Ok([])
    else
      var init :- Collect(f, xs[..|xs| - 1]);
      var last :- f(xs[|xs| - 1]);
      Ok(init + [last])
  }

  /** The results come in the elements' order, each that element's own. */
  lemma {:induction false} CollectEach<T, U>(f: T -> Result<U>, xs: seq<T>)
    requires Collect(f, xs).Ok?
    ensures forall i :: 0 <= i < |xs| ==> f(xs[i]) == Ok(Collect(f, xs).value[i])
  {
    if xs != [] {
      var init := xs[..|xs| - 1];
      CollectEach(f, init);
      var all := Collect(f, xs).value;
      forall i | 0 <= i < |init| ensures f(xs[i]) == Ok(all[i]) {
        assert init[i] == xs[i];
      }
    }
  }

  /** The run succeeds exactly when every element's result does. */
  lemma {:induction false} CollectOk<T, U>(f: T -> Result<U>, xs: seq<T>)
    ensures Collect(f, xs).Ok? <==> forall i :: 0 <= i < |xs| ==> f(xs[i]).Ok?
  {
    if xs != [] {
      var init := xs[..|xs| - 1];
      CollectOk(f, init);
      assert forall i :: 0 <= i < |init| ==> init[i] == xs[i];
    }
  }

  /** A failed run fails with the error of its first failing element. */
  lemma {:induction false} CollectFirstFailure<T, U>(f: T -> Result<U>, xs: seq<T>)
    requires Collect(f, xs).Fail?
    ensures exists i :: (0 <= i < |xs| && f(xs[i]).Fail? && Collect(f, xs).error == f(xs[i]).error &&
                         forall j :: 0 <= j < i ==> f(xs[j]).Ok?)
  {
    var init := xs[..|xs| - 1];
    if Collect(f, init).Fail? {
      CollectFirstFailure(f, init);
      var i :| (0 <= i < |init| && f(init[i]).Fail? && Collect(f, init).error == f(init[i]).error &&
                forall j :: 0 <= j < i ==> f(init[j]).Ok?);
      assert forall j :: 0 <= j <= i ==> init[j] == xs[j];
    } else {
      CollectOk(f, init);
      assert forall j :: 0 <= j < |init| ==> init[j] == xs[j];
    }
  }

  /** A single element's run is that element's result alone. */
  lemma {:induction false} CollectOne<T, U>(f: T -> Result<U>, x: T)
    ensures f(x).Ok? ==> Collect(f, [x]) == Ok([f(x).value])
    ensures f(x).Fail? ==> Collect(f, [x]) == Fail(f(x).error)
  {
    assert [x][..0] == [];
    if f(x).Ok? {
      assert [] + [f(x).value] == [f(x).value];
    }
  }

  /** One more element: its result is appended, or its failure ends the run. */
  lemma {:induction false} CollectStep<T, U>(f: T -> Result<U>, xs: seq<T>, i: nat)
    requires i < |xs| && Collect(f, xs[..i]).Ok?
    ensures f(xs[i]).Ok? ==> Collect(f, xs[..i + 1]) == Ok(Collect(f, xs[..i]).value + [f(xs[i]).value])
    ensures f(xs[i]).Fail? ==> Collect(f, xs) == Fail(f(xs[i]).error)
  {
    var prefix := xs[..i + 1];
    assert prefix[..i] == xs[..i];
    assert prefix[i] == xs[i];
    if f(xs[i]).Fail? {
      CollectFailurePersists(f, xs, i + 1);
    }
  }

  /** Once a prefix of the elements fails, the whole run fails the same way. */
  lemma {:induction false} CollectFailurePersists<T, U>(f: T -> Result<U>, xs: seq<T>, i: nat)
    requires i <= |xs| && Collect(f, xs[..i]).Fail?
    ensures Collect(f, xs) == Collect(f, xs[..i])
    decreases |xs|
  {
    if i < |xs| {
      var init := xs[..|xs| - 1];
      assert init[..i] == xs[..i];
      CollectFailurePersists(f, init, i);
    } else {
      assert xs[..i] == xs;
    }
  }
}
