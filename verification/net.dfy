/** The abstract network the extraction scripts talk to, the trace of observable
    effects they leave, and the back-off arithmetic they share.

    A request is answered by the next entry of a finite response script; once the
    script is used up every further request fails to connect. Sleeps, token
    requests, credential rotations, GETs and file writes are recorded as events
    instead of being performed. */
module Net {

  datatype Option<+T> = None | Some(value: T)

  /** Python truthiness of an optional string: present and non-empty. */
  predicate Truthy(s: Option<string>) {
    s.Some? && s.value != ""
  }

  /** An HTTP status other than 200; a 200 is carried by `Ok` together with its body. */
  type ErrorStatus = c: int | c != 200 witness 404

  /** One scripted answer to a request. `retryAfter` is the parsed `Retry-After` header, if any. */
  datatype Response<+B> =
    | Ok(body: B)
    | Status(code: ErrorStatus, retryAfter: Option<nat>)
    | ConnErr

  /** The answer to the next request and the script left after it. */
  function Receive<B>(script: seq<Response<B>>): (r: (Response<B>, seq<Response<B>>))
    ensures |script| == 0 ==> r.0 == ConnErr && r.1 == []
    ensures |script| > 0 ==> r.0 == script[0] && r.1 == script[1..]
  {
    if |script| == 0 then (ConnErr, []) else (script[0], script[1..])
  }

  /** A script that answers each request with the next of `bodies`, all 200s. */
  function OkAll<B>(bodies: seq<B>): (rs: seq<Response<B>>)
    ensures |rs| == |bodies| && forall i :: 0 <= i < |bodies| ==> rs[i] == Ok(bodies[i])
  {
    if bodies == [] then [] else [Ok(bodies[0])] + OkAll(bodies[1..])
  }

  /** The first k answers of a script are all connection errors. */
  predicate LeadingConnErrs<B>(script: seq<Response<B>>, k: nat) {
    k <= |script| && forall i :: 0 <= i < k ==> script[i].ConnErr?
  }

  /** `a` is what is left of `b` after some answers were taken from its front. */
  predicate IsSuffix<T(==)>(a: seq<T>, b: seq<T>) {
    |a| <= |b| && a == b[|b| - |a|..]
  }

  /** The answers taken from `script` when `rest` is what is left of it. */
  function Consumed<T>(script: seq<T>, rest: seq<T>): seq<T>
    requires |rest| <= |script|
  {
    script[..|script| - |rest|]
  }

  lemma SuffixTransitive<T>(a: seq<T>, b: seq<T>, c: seq<T>)
    requires IsSuffix(a, b) && IsSuffix(b, c)
    ensures IsSuffix(a, c)
  {
    assert b[|b| - |a|..] == c[|c| - |b|..][|b| - |a|..];
  }

  /** Failures that escape a script as an uncaught Python exception. */
  datatype Fault =
    | TokenRejected(status: ErrorStatus)   // the raise in a token helper that checks the status
    | ConnectionFailed                     // a requests connection error nobody catches
    | NoneSubscripted                      // `track['name']` on a track that is None
    | MissingColumn(column: string)        // a pandas KeyError
    | ShapeMismatch                        // a numpy boolean index of the wrong length

  datatype Outcome<+T> = Done(value: T) | Raised(fault: Fault)

  /** The three credential sets imported from the secrets module. */
  datatype Account = ESecrets | LSecrets | VSecrets

  datatype SleepCause = ConnectionBackoff | RateLimited | Pacing

  datatype Event =
    | Sleep(seconds: nat, cause: SleepCause)
    | Get(url: string, query: seq<(string, string)>, authorization: Option<string>)
    | GetStream(url: string)
    | TokenRequest(account: Account)
    | Rotate(index: nat)
    | MakeDirs(path: string)
    | Open(path: string)
    | Write(path: string, chunk: seq<bv8>)

  /** The default retry budget of every fetch helper. */
  const Retries: nat := 5

  /** Seconds to wait on a 429 without a `Retry-After` header. */
  const DefaultRetryAfter: nat := 30

  /** Seconds the feature extractor waits before each page and each full batch. */
  const PageDelay: nat := 30

  function Pow2(n: nat): (r: nat)
    ensures r >= 1
  {
    if n == 0 then 1 else 2 * Pow2(n - 1)
  }

  /** `2 ** (5 - retries)`: the wait after a connection error with `budget` attempts left. */
  function BackoffWait(budget: nat): nat
    requires 1 <= budget <= Retries
  {
    Pow2(Retries - budget)
  }

  /** The waits of consecutive connection errors starting from `budget` attempts left. */
  function BackoffSchedule(budget: nat): (r: seq<nat>)
    requires budget <= Retries
    ensures |r| == budget
  {
    if budget == 0 then [] else [BackoffWait(budget)] + BackoffSchedule(budget - 1)
  }

  /** From a full budget the waits double from one second: 1, 2, 4, 8, 16. */
  lemma FullBackoffSchedule()
    ensures BackoffSchedule(Retries) == [1, 2, 4, 8, 16]
  {
    assert Pow2(4) == 16 && Pow2(3) == 8 && Pow2(2) == 4 && Pow2(1) == 2;
    assert BackoffSchedule(1) == [16];
    assert BackoffSchedule(2) == [8, 16];
    assert BackoffSchedule(3) == [4, 8, 16];
    assert BackoffSchedule(4) == [2, 4, 8, 16];
  }

  /** A connection error with `budget` attempts left, then waits that follow the
      schedule from the budget it leaves (`budget - 1`), follow the schedule from `budget`. */
  lemma ScheduleCons(budget: nat, spent: nat, head: seq<nat>, tail: seq<nat>)
    requires 1 <= budget <= Retries && budget - 1 <= spent <= budget
    requires head == if spent < budget then [BackoffWait(budget)] else []
    requires IsPrefix(tail, BackoffSchedule(spent))
    ensures IsPrefix(head + tail, BackoffSchedule(budget))
    ensures |head + tail| == budget <==> |tail| == spent
  {
    assert BackoffSchedule(budget) == [BackoffWait(budget)] + BackoffSchedule(budget - 1);
  }

  /** `int(response.headers.get('Retry-After', 30))`. */
  function RetryAfterWait(header: Option<nat>): (r: nat)
    ensures header.None? ==> r == DefaultRetryAfter
    ensures header.Some? ==> r == header.value
  {
    match header
    case Some(s) => s
    case None => DefaultRetryAfter
  }

  predicate IsPrefix<T(==)>(a: seq<T>, b: seq<T>) {
    |a| <= |b| && a == b[..|a|]
  }

  /** The values `pick` selects from a trace, in trace order. */
  function Pick<T>(trace: seq<Event>, pick: Event -> Option<T>): seq<T>
  {
    if trace == [] then [] else Picked(trace[0], pick) + Pick(trace[1..], pick)
  }

  function Picked<T>(e: Event, pick: Event -> Option<T>): seq<T> {
    match pick(e)
    case Some(v) => [v]
    case None => []
  }

  lemma {:induction false} PickAppend<T>(a: seq<Event>, b: seq<Event>, pick: Event -> Option<T>)
    ensures Pick(a + b, pick) == Pick(a, pick) + Pick(b, pick)
  {
    if a != [] {
      assert (a + b)[0] == a[0];
      assert (a + b)[1..] == a[1..] + b;
      PickAppend(a[1..], b, pick);
      calc {
        Pick(a + b, pick);
        Picked(a[0], pick) + Pick(a[1..] + b, pick);
        Picked(a[0], pick) + (Pick(a[1..], pick) + Pick(b, pick));
        (Picked(a[0], pick) + Pick(a[1..], pick)) + Pick(b, pick);
      }
    } else {
      assert a + b == b;
    }
  }

  lemma PickTwo<T>(a: Event, b: Event, pick: Event -> Option<T>)
    ensures Pick([a], pick) == Picked(a, pick)
    ensures Pick([a, b], pick) == Picked(a, pick) + Picked(b, pick)
  {
    assert [a][1..] == [];
    assert [a, b][1..] == [b];
    assert [b][1..] == [];
  }

  lemma PickThree<T>(a: Event, b: Event, c: Event, pick: Event -> Option<T>)
    ensures Pick([a, b, c], pick) == Picked(a, pick) + Picked(b, pick) + Picked(c, pick)
  {
    assert [a, b, c][1..] == [b, c];
    PickTwo(b, c, pick);
  }

  lemma {:induction false} PickNothing<T>(trace: seq<Event>, pick: Event -> Option<T>)
    requires forall i :: 0 <= i < |trace| ==> pick(trace[i]).None?
    ensures Pick(trace, pick) == []
  {
    if trace != [] {
      assert pick(trace[0]).None?;
      PickNothing(trace[1..], pick);
    }
  }

  function BackoffOf(e: Event): Option<nat> {
    if e.Sleep? && e.cause == ConnectionBackoff then Some(e.seconds) else None
  }

  function RotationOf(e: Event): Option<nat> {
    if e.Rotate? then Some(e.index) else None
  }

  function TokenAccountOf(e: Event): Option<Account> {
    if e.TokenRequest? then Some(e.account) else None
  }

  function StreamUrlOf(e: Event): Option<string> {
    if e.GetStream? then Some(e.url) else None
  }

  function GetUrlOf(e: Event): Option<string> {
    if e.Get? then Some(e.url) else None
  }

  /** The connection back-off waits of a trace, in order. */
  function Backoffs(trace: seq<Event>): seq<nat> {
    Pick(trace, BackoffOf)
  }

  /** A trace that neither asks for a token nor sends any request. */
  predicate Offline(trace: seq<Event>) {
    forall i :: 0 <= i < |trace| ==> !trace[i].Get? && !trace[i].GetStream? && !trace[i].TokenRequest?
  }

  /** `str(n)` for a natural number. */
  function NatToString(n: nat): (s: string)
    ensures |s| >= 1
    ensures forall i :: 0 <= i < |s| ==> '0' <= s[i] <= '9'
  {
    if n < 10 then ["0123456789"[n]] else NatToString(n / 10) + ["0123456789"[n % 10]]
  }

  /** `str(i)` for an integer. */
  function IntToString(i: int): (s: string)
    ensures |s| >= 1
    ensures forall k :: 0 <= k < |s| ==> s[k] == '-' || '0' <= s[k] <= '9'
  {
    if i < 0 then "-" + NatToString(-i) else NatToString(i)
  }

  /** `sep.join(xs)`. */
  function JoinWith(sep: string, xs: seq<string>): string {
    if xs == [] then "" else if |xs| == 1 then xs[0] else xs[0] + sep + JoinWith(sep, xs[1..])
  }
}
