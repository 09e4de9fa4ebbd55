/** Results and errors shared by every component. */
module Outcome {

  datatype Option<+T> = None | Some(value: T)

  /** The wallet's errors, by cause rather than by message text. */
  datatype WalletError =
    | InsufficientFunds
    | NotConverged
    | NoInputsSelected
    | MissingScript
    | MissingAddress
    | BadHex
    | BadTxid
    | BadAddress
    | BadSecret
    | LocalSignatureRejected
    | NoSigningKey
    | CountMismatch
    | IndexOutOfRange
    | DecodeFailed
    | EmptyTransaction
    | BadAmount
    | OutputNotPaid
    | WrongOutpoint
    | NotP2pkh
    | BadScriptSig
    | BadSignature
    | ParentLookupFailed
    | MissingVout
    | ScriptMismatch
    | BudgetExhausted
    | BatchLimitReached
    | BackendFailure

  datatype Result<+T> = Success(value: T) | Failure(error: WalletError) {
    predicate IsFailure() { Failure? }

    function PropagateFailure<U>(): Result<U>
      requires Failure?
    {
      Failure(error)
    }

    function Extract(): T
      requires Success?
    {
      value
    }
  }

  /** Runs steps `i` to `n - 1` in order; the first failure is the outcome. */
  function Collect<T>(n: nat, step: nat -> Result<T>, i: nat): (r: Result<seq<T>>)
    requires i <= n
    ensures r.Success? ==> |r.value| == n - i
    decreases n - i
  {
    if i == n then Success([])
    else
      var first :- step(i);
      var rest :- Collect(n, step, i + 1);
      Success([first] + rest)
  }

  lemma {:induction false} CollectAll<T>(n: nat, step: nat -> Result<T>, i: nat)
    requires i <= n
    ensures Collect(n, step, i).Success? <==> forall k :: i <= k < n ==> step(k).Success?
    ensures Collect(n, step, i).Success? ==>
      forall k :: i <= k < n ==> step(k) == Success(Collect(n, step, i).value[k - i])
    decreases n - i
  {
    if i < n {
      CollectAll(n, step, i + 1);
    }
  }

  /** Results already produced in front of the outcome for the rest. */
  function After<T>(done: seq<T>, rest: Result<seq<T>>): Result<seq<T>> {
    match rest
    case Failure(e) => Failure(e)
    case Success(xs) => Success(done + xs)
  }

  lemma {:induction false} CollectStart<T>(n: nat, step: nat -> Result<T>)
    ensures Collect(n, step, 0) == After([], Collect(n, step, 0))
  {
    if Collect(n, step, 0).Success? {
      assert [] + Collect(n, step, 0).value == Collect(n, step, 0).value;
    }
  }

  /** One turn of a loop that pushes the results of successive steps. */
  lemma {:induction false} CollectStep<T>(n: nat, step: nat -> Result<T>, i: nat, done: seq<T>)
    requires i < n
    ensures match step(i)
            case Failure(e) => After(done, Collect(n, step, i)) == Failure(e)
            case Success(x) => After(done, Collect(n, step, i)) == After(done + [x], Collect(n, step, i + 1))
  {
    var rest := Collect(n, step, i + 1);
    if step(i).Success? && rest.Success? {
      assert done + ([step(i).value] + rest.value) == (done + [step(i).value]) + rest.value;
    }
  }

  lemma {:induction false} CollectEnd<T>(n: nat, step: nat -> Result<T>, done: seq<T>)
    requires Collect(n, step, 0) == After(done, Collect(n, step, n))
    ensures Collect(n, step, 0) == Success(done)
  {
    assert done + [] == done;
  }

  /** The outcome of steps that succeeded up to the one that failed. */
  lemma {:induction false} CollectFails<T>(n: nat, step: nat -> Result<T>, i: nat, stop: nat)
    requires i <= stop < n && step(stop).Failure? && forall k: nat :: i <= k < stop ==> step(k).Success?
    ensures Collect(n, step, i) == Failure(step(stop).error)
    decreases stop - i
  {
    if i < stop {
      CollectFails(n, step, i + 1, stop);
    }
  }

  lemma {:induction false} CollectSucceeds<T>(n: nat, step: nat -> Result<T>, xs: seq<T>)
    requires |xs| == n && forall k: nat :: k < n ==> step(k) == Success(xs[k])
    ensures Collect(n, step, 0) == Success(xs)
  {
    CollectAll(n, step, 0);
    var ys := Collect(n, step, 0).value;
    forall k | 0 <= k < n
      ensures xs[k] == ys[k]
    {
      assert step(k) == Success(ys[k - 0]);
    }
    assert xs == ys;
  }

  lemma {:induction false} CollectedIff<T>(n: nat, step: nat -> Result<T>, xs: seq<T>)
    ensures Collect(n, step, 0) == Success(xs) <==> |xs| == n && forall k: nat :: k < n ==> step(k) == Success(xs[k])
  {
    CollectAll(n, step, 0);
    if |xs| == n && forall k: nat :: k < n ==> step(k) == Success(xs[k]) {
      CollectSucceeds(n, step, xs);
    }
  }
}
