/** extract/e_add_song_title.py: one track name per id, fetched with a
    process-wide credential index that a 401 rotates modulo the pool size,
    `Retry-After` waits on 429 and exponential back-off on connection errors. */
module SongTitles {
  import opened Net

  /** The rotation pool, in the order the script lists it. */
  const Credentials: seq<Account> := [LSecrets, ESecrets, VSecrets]

  const TrackEndpoint: string := "https://api.spotify.com/v1/tracks"

  const BearerPrefix: string := "Bearer "

  /** rotate_credentials: advance the global index modulo the pool size and
      return the entry it now points at. */
  function RotateCredentials(index: nat): (r: (nat, Account))
    requires index < |Credentials|
    ensures r.0 < |Credentials|
    ensures r.0 == if index == |Credentials| - 1 then 0 else index + 1
    ensures r.1 == Credentials[r.0]
  {
    var next := (index + 1) % |Credentials|;
    (next, Credentials[next])
  }

  /** The index after `k` successive rotations. */
  function RotateTimes(index: nat, k: nat): (r: nat)
    requires index < |Credentials|
    ensures r < |Credentials|
  {
    if k == 0 then index else RotateCredentials(RotateTimes(index, k - 1)).0
  }

  lemma {:induction false} RotateTimesModular(index: nat, k: nat)
    requires index < |Credentials|
    ensures RotateTimes(index, k) == (index + k) % |Credentials|
  {
    if k > 0 {
      RotateTimesModular(index, k - 1);
    }
  }

  /** Three rotations from any index hand out every credential set exactly once
      and come back to the start; from the initial index 0 the first rotation
      hands out `e_secrets`. */
  lemma RotationCycle(index: nat)
    requires index < |Credentials|
    ensures RotateTimes(index, |Credentials|) == index
    ensures multiset{Credentials[RotateTimes(index, 1)], Credentials[RotateTimes(index, 2)],
                     Credentials[RotateTimes(index, 3)]} == multiset(Credentials)
    ensures RotateCredentials(0) == (1, ESecrets)
  {
    RotateTimesModular(index, 1);
    RotateTimesModular(index, 2);
    RotateTimesModular(index, 3);
    assert multiset(Credentials) == multiset{LSecrets, ESecrets, VSecrets};
  }

  /** update_headers: the authorization header the token can be read back from. */
  function UpdateHeaders(token: string): (h: string)
    ensures IsBearer(h) && h[|BearerPrefix|..] == token
  {
    BearerPrefix + token
  }

  predicate IsBearer(h: string) {
    |BearerPrefix| <= |h| && h[..|BearerPrefix|] == BearerPrefix
  }

  datatype TokenResult = Token(value: string) | TokenRefused(status: ErrorStatus) | TokenUnreachable

  /** get_spotify_token: the access token on a 200, a raise on any other status;
      a connection error surfaces as the requests exception. */
  function GetSpotifyToken(answer: Response<string>): (r: TokenResult)
    ensures r.Token? <==> answer.Ok?
    ensures answer.Ok? ==> r.value == answer.body
    ensures answer.Status? ==> r == TokenRefused(answer.code)
  {
    match answer
    case Ok(token) => Token(token)
    case Status(code, _) => TokenRefused(code)
    case ConnErr => TokenUnreachable
  }

  /** The global state: the credential index and the request headers. */
  datatype Session = Session(index: nat, headers: string)

  predicate ValidSession(s: Session) {
    s.index < |Credentials| && IsBearer(s.headers)
  }

  /** Scripted answers of the track endpoint and of the token endpoint. */
  datatype Network = Network(tracks: seq<Response<string>>, tokens: seq<Response<string>>)

  predicate Follows(later: Network, earlier: Network) {
    IsSuffix(later.tracks, earlier.tracks) && IsSuffix(later.tokens, earlier.tokens)
  }

  lemma FollowsTransitive(a: Network, b: Network, c: Network)
    requires Follows(a, b) && Follows(b, c)
    ensures Follows(a, c)
  {
    SuffixTransitive(a.tracks, b.tracks, c.tracks);
    SuffixTransitive(a.tokens, b.tokens, c.tokens);
  }

  /** How the retry loop for one id ends: a name, a None entry, no entry at all
      (budget spent), or the token exception escaping. */
  datatype IdOutcome = Named(name: string) | Missing | Exhausted | Escaped(status: ErrorStatus)

  datatype IdRun = IdRun(outcome: IdOutcome, session: Session, net: Network, trace: seq<Event>)

  function TrackUrl(id: string): string {
    TrackEndpoint + "/" + id
  }

  /** One pass through the body of the `while retry_count > 0` loop of
      get_track_names: either the loop is left, or it goes round again with the
      budget, session and network this pass leaves behind. */
  datatype Attempt =
    | Finish(outcome: IdOutcome, session: Session, net: Network, trace: seq<Event>)
    | Again(budget: nat, session: Session, net: Network, trace: seq<Event>)

  /** The 401 branch: rotate the credentials and ask for a new token. A token
      goes round again with the budget intact and fresh headers; a refusal
      leaves the loop with its status, to be raised; a failed connection backs
      off and spends one attempt. */
  function Reauthorize(retryCount: nat, s: Session, request: Event, tracks: seq<Response<string>>,
                       tokens: seq<Response<string>>): (r: Attempt)
    requires 1 <= retryCount <= Retries && ValidSession(s)
    ensures ValidSession(r.session) && r.session.index == RotateCredentials(s.index).0
    ensures r.net == Network(tracks, Receive(tokens).1)
    ensures r.Finish? <==> Receive(tokens).0.Status?
    ensures Receive(tokens).0.Ok? ==>
              r.Again? && r.budget == retryCount && r.session.headers == UpdateHeaders(Receive(tokens).0.body)
    ensures r.Finish? ==> r.outcome == Escaped(Receive(tokens).0.code)
    ensures Receive(tokens).0.ConnErr? ==> r.Again? && r.budget == retryCount - 1 && r.session.headers == s.headers
  {
    var (index, account) := RotateCredentials(s.index);
    var (answer, rest) := Receive(tokens);
    var rotated := [request, Rotate(index), TokenRequest(account)];
    match GetSpotifyToken(answer)
    case Token(token) => Again(retryCount, Session(index, UpdateHeaders(token)), Network(tracks, rest), rotated)
    case TokenRefused(status) => Finish(Escaped(status), Session(index, s.headers), Network(tracks, rest), rotated)
    case TokenUnreachable =>
      Again(retryCount - 1, Session(index, s.headers), Network(tracks, rest),
            rotated + [Sleep(BackoffWait(retryCount), ConnectionBackoff)])
  }

  /** What one pass of the loop body does with the track answer `answer`,
      `tracks` being the answers left after it. */
  function OnAnswer(id: string, retryCount: nat, s: Session, answer: Response<string>, tracks: seq<Response<string>>,
                    tokens: seq<Response<string>>): (r: Attempt)
    requires 1 <= retryCount <= Retries && ValidSession(s)
    ensures ValidSession(r.session) && r.net.tracks == tracks && IsSuffix(r.net.tokens, tokens)
    ensures r.Finish? ==> !r.outcome.Exhausted?
    ensures r.Again? ==> retryCount - 1 <= r.budget <= retryCount
  {
    var request := Get(TrackUrl(id), [], Some(s.headers));
    match answer
    case Ok(name) => Finish(Named(name), s, Network(tracks, tokens), [request])
    case Status(code, retryAfter) =>
      if code == 401 then Reauthorize(retryCount, s, request, tracks, tokens)
      else if code == 429 then
        Again(retryCount, s, Network(tracks, tokens), [request, Sleep(RetryAfterWait(retryAfter), RateLimited)])
      else
        Finish(Missing, s, Network(tracks, tokens), [request])
    case ConnErr =>
      Again(retryCount - 1, s, Network(tracks, tokens), [request, Sleep(BackoffWait(retryCount), ConnectionBackoff)])
  }

  /** One pass of the loop body: it reads the next track answer. A pass that
      goes round again has read an answer or spent an attempt. */
  function AttemptName(id: string, retryCount: nat, s: Session, net: Network): (r: Attempt)
    requires 1 <= retryCount <= Retries && ValidSession(s)
    ensures ValidSession(r.session) && Follows(r.net, net)
    ensures r.Finish? ==> !r.outcome.Exhausted?
    ensures r.Again? ==> retryCount - 1 <= r.budget <= retryCount
    ensures r.Again? ==> |r.net.tracks| < |net.tracks| || r.budget < retryCount
  {
    var (answer, tracks) := Receive(net.tracks);
    OnAnswer(id, retryCount, s, answer, tracks, net.tokens)
  }

  /** One pass of the loop body, by the track answer it reads. A 200 names the
      track; a 401 rotates the credentials and, with a new token, goes round
      again with the budget intact, while a refused token leaves the loop with
      the status, to be raised; a 429 waits `Retry-After` and goes round again
      with the budget intact; any other status gives a None entry; a
      connection error backs off and spends one attempt. Only a connection
      error, of the track request or of the token request, spends budget. */
  lemma PassOutcome(id: string, retryCount: nat, s: Session, net: Network)
    requires 1 <= retryCount <= Retries && ValidSession(s)
    ensures var r := AttemptName(id, retryCount, s, net);
            var (answer, tracks) := Receive(net.tracks);
            var token := Receive(net.tokens).0;
            var request := Get(TrackUrl(id), [], Some(s.headers));
            && (r.Again? && r.budget < retryCount ==> answer.ConnErr? || (Is401(answer) && token.ConnErr?))
            && (answer.Ok? ==> r == Finish(Named(answer.body), s, Network(tracks, net.tokens), [request]))
            && (Is401(answer) && token.Status? ==> r.Finish? && r.outcome == Escaped(token.code))
            && (Is401(answer) && token.Ok? ==>
                  r.Again? && r.budget == retryCount
                  && r.session == Session(RotateCredentials(s.index).0, UpdateHeaders(token.body)))
            && (answer.Status? && answer.code == 429 ==>
                  r == Again(retryCount, s, Network(tracks, net.tokens),
                             [request, Sleep(RetryAfterWait(answer.retryAfter), RateLimited)]))
            && (answer.Status? && answer.code != 401 && answer.code != 429 ==>
                  r == Finish(Missing, s, Network(tracks, net.tokens), [request]))
            && (answer.ConnErr? ==>
                  r == Again(retryCount - 1, s, Network(tracks, net.tokens),
                             [request, Sleep(BackoffWait(retryCount), ConnectionBackoff)]))
  {
    var (answer, tracks) := Receive(net.tracks);
    assert AttemptName(id, retryCount, s, net) == OnAnswer(id, retryCount, s, answer, tracks, net.tokens);
    AnswerCases(id, retryCount, s, answer, tracks, net.tokens);
  }

  lemma AnswerCases(id: string, retryCount: nat, s: Session, answer: Response<string>, tracks: seq<Response<string>>,
                    tokens: seq<Response<string>>)
    requires 1 <= retryCount <= Retries && ValidSession(s)
    ensures var r := OnAnswer(id, retryCount, s, answer, tracks, tokens);
            var token := Receive(tokens).0;
            var request := Get(TrackUrl(id), [], Some(s.headers));
            && (r.Again? && r.budget < retryCount ==> answer.ConnErr? || (Is401(answer) && token.ConnErr?))
            && (answer.Ok? ==> r == Finish(Named(answer.body), s, Network(tracks, tokens), [request]))
            && (Is401(answer) && token.Status? ==> r.Finish? && r.outcome == Escaped(token.code))
            && (Is401(answer) && token.Ok? ==>
                  r.Again? && r.budget == retryCount
                  && r.session == Session(RotateCredentials(s.index).0, UpdateHeaders(token.body)))
            && (answer.Status? && answer.code == 429 ==>
                  r == Again(retryCount, s, Network(tracks, tokens),
                             [request, Sleep(RetryAfterWait(answer.retryAfter), RateLimited)]))
            && (answer.Status? && answer.code != 401 && answer.code != 429 ==>
                  r == Finish(Missing, s, Network(tracks, tokens), [request]))
            && (answer.ConnErr? ==>
                  r == Again(retryCount - 1, s, Network(tracks, tokens),
                             [request, Sleep(BackoffWait(retryCount), ConnectionBackoff)]))
  {
  }

  /** The whole retry loop of get_track_names for one id. */
  function FetchName(id: string, retryCount: nat, s: Session, net: Network): (r: IdRun)
    requires retryCount <= Retries && ValidSession(s)
    ensures ValidSession(r.session) && Follows(r.net, net)
    decreases |net.tracks|, retryCount
  {
    if retryCount == 0 then IdRun(Exhausted, s, net, [])
    else
      match AttemptName(id, retryCount, s, net)
      case Finish(outcome, s', net', trace) => IdRun(outcome, s', net', trace)
      case Again(budget, s', net', trace) =>
        var r := FetchName(id, budget, s', net');
        FollowsTransitive(r.net, net', net);
        r.(trace := trace + r.trace)
  }

  /** What one id appends to `track_names`. */
  function Entry(o: IdOutcome): (e: seq<Option<string>>)
    ensures |e| <= 1 && (|e| == 1 <==> o.Named? || o.Missing?)
  {
    match o
    case Named(name) => [Some(name)]
    case Missing => [None]
    case _ => []
  }

  datatype NamesRun = NamesRun(outcome: Outcome<seq<Option<string>>>, session: Session, net: Network, trace: seq<Event>)

  /** get_track_names over the ids, each with a fresh budget of five attempts. */
  function GetTrackNames(ids: seq<string>, s: Session, net: Network): (r: NamesRun)
    requires ValidSession(s)
    ensures ValidSession(r.session) && Follows(r.net, net)
    ensures r.outcome.Done? ==> |r.outcome.value| <= |ids|
    decreases |ids|
  {
    if ids == [] then NamesRun(Done([]), s, net, [])
    else
      var first := FetchName(ids[0], Retries, s, net);
      if first.outcome.Escaped? then
        NamesRun(Raised(TokenRejected(first.outcome.status)), first.session, first.net, first.trace)
      else
        var rest := GetTrackNames(ids[1..], first.session, first.net);
        FollowsTransitive(rest.net, first.net, net);
        var names := match rest.outcome
          case Done(tail) => Done(Entry(first.outcome) + tail)
          case Raised(fault) => Raised(fault);
        NamesRun(names, rest.session, rest.net, first.trace + rest.trace)
  }

  // ---------------------------------------------------------------------------
  // Properties of the retry loop

  predicate Is401(answer: Response<string>) {
    answer.Status? && answer.code == 401
  }

  /** The waits, rotations and network answers of one pass of the loop body. */
  lemma AttemptEffects(id: string, retryCount: nat, s: Session, net: Network)
    requires 1 <= retryCount <= Retries && ValidSession(s)
    ensures var st := AttemptName(id, retryCount, s, net);
            && (st.Finish? ==> Backoffs(st.trace) == [])
            && (st.Again? ==> Backoffs(st.trace) == if st.budget < retryCount then [BackoffWait(retryCount)] else [])
            && Rotations(st.trace) == Count401(Consumed(net.tracks, st.net.tracks))
  {
    var st := AttemptName(id, retryCount, s, net);
    var response := Receive(net.tracks).0;
    if |net.tracks| > 0 {
      assert Consumed(net.tracks, st.net.tracks) == [response];
      assert Count401([response]) == if Is401(response) then 1 else 0;
    } else {
      assert Consumed(net.tracks, st.net.tracks) == [];
    }
    if Is401(response) {
      UnauthorizedEffects(id, retryCount, s, net);
    } else {
      OtherEffects(id, retryCount, s, net);
    }
  }

  /** A 401: one rotation, and a back-off wait only when the token request fails to connect. */
  lemma UnauthorizedEffects(id: string, retryCount: nat, s: Session, net: Network)
    requires 1 <= retryCount <= Retries && ValidSession(s) && Is401(Receive(net.tracks).0)
    ensures var st := AttemptName(id, retryCount, s, net);
            && (st.Finish? ==> Backoffs(st.trace) == [])
            && (st.Again? ==> Backoffs(st.trace) == if st.budget < retryCount then [BackoffWait(retryCount)] else [])
            && Rotations(st.trace) == 1
  {
    var request := Get(TrackUrl(id), [], Some(s.headers));
    var (index, account) := RotateCredentials(s.index);
    var rotated := [request, Rotate(index), TokenRequest(account)];
    var wait := Sleep(BackoffWait(retryCount), ConnectionBackoff);
    PickThree(request, Rotate(index), TokenRequest(account), BackoffOf);
    PickThree(request, Rotate(index), TokenRequest(account), RotationOf);
    if Receive(net.tokens).0.ConnErr? {
      PickTwo(wait, wait, BackoffOf);
      PickTwo(wait, wait, RotationOf);
      PickAppend(rotated, [wait], BackoffOf);
      PickAppend(rotated, [wait], RotationOf);
    }
  }

  /** Any other answer: no rotation, and a back-off wait only on a connection error. */
  lemma OtherEffects(id: string, retryCount: nat, s: Session, net: Network)
    requires 1 <= retryCount <= Retries && ValidSession(s) && !Is401(Receive(net.tracks).0)
    ensures var st := AttemptName(id, retryCount, s, net);
            && (st.Finish? ==> Backoffs(st.trace) == [])
            && (st.Again? ==> Backoffs(st.trace) == if st.budget < retryCount then [BackoffWait(retryCount)] else [])
            && Rotations(st.trace) == 0
  {
    var request := Get(TrackUrl(id), [], Some(s.headers));
    var response := Receive(net.tracks).0;
    PickTwo(request, request, BackoffOf);
    PickTwo(request, request, RotationOf);
    if response.Status? && response.code == 429 {
      PickTwo(request, Sleep(RetryAfterWait(response.retryAfter), RateLimited), BackoffOf);
      PickTwo(request, Sleep(RetryAfterWait(response.retryAfter), RateLimited), RotationOf);
    } else if response.ConnErr? {
      PickTwo(request, Sleep(BackoffWait(retryCount), ConnectionBackoff), BackoffOf);
      PickTwo(request, Sleep(BackoffWait(retryCount), ConnectionBackoff), RotationOf);
    }
  }

  /** FetchName is one attempt followed, if the loop goes round again, by the rest of the loop. */
  lemma FetchNameUnfold(id: string, retryCount: nat, s: Session, net: Network)
    requires 1 <= retryCount <= Retries && ValidSession(s)
    ensures var st := AttemptName(id, retryCount, s, net);
            var r := FetchName(id, retryCount, s, net);
            && (st.Finish? ==> r == IdRun(st.outcome, st.session, st.net, st.trace))
            && (st.Again? ==> var inner := FetchName(id, st.budget, st.session, st.net);
                              r == inner.(trace := st.trace + inner.trace))
  {
  }

  /** Only connection errors spend budget: the back-off waits of one id are the
      doubling schedule from its budget, cut short, and the loop gives up (no
      entry) exactly when the whole schedule has been slept. */
  lemma {:induction false} FetchNameBackoffs(id: string, retryCount: nat, s: Session, net: Network)
    requires retryCount <= Retries && ValidSession(s)
    ensures var r := FetchName(id, retryCount, s, net);
            && IsPrefix(Backoffs(r.trace), BackoffSchedule(retryCount))
            && (r.outcome.Exhausted? <==> |Backoffs(r.trace)| == retryCount)
    decreases |net.tracks|, retryCount
  {
    if retryCount == 0 {
      assert FetchName(id, retryCount, s, net).trace == [];
    } else {
      var st := AttemptName(id, retryCount, s, net);
      if st.Again? {
        FetchNameBackoffs(id, st.budget, st.session, st.net);
        BackoffsAgainStep(id, retryCount, s, net, st.budget, st.session, st.net);
      } else {
        AttemptEffects(id, retryCount, s, net);
        FetchNameUnfold(id, retryCount, s, net);
      }
    }
  }

  /** The inductive step of FetchNameBackoffs for a pass that goes round
      again, with the later passes' waits as a premise. */
  lemma BackoffsAgainStep(id: string, retryCount: nat, s: Session, net: Network, budget: nat, s': Session,
                          net': Network)
    requires 1 <= retryCount <= Retries && ValidSession(s) && budget <= Retries && ValidSession(s')
    requires var st := AttemptName(id, retryCount, s, net);
             st.Again? && st.budget == budget && st.session == s' && st.net == net'
    requires var inner := FetchName(id, budget, s', net');
             IsPrefix(Backoffs(inner.trace), BackoffSchedule(budget)) && (inner.outcome.Exhausted? <==> |Backoffs(inner.trace)| == budget)
    ensures var r := FetchName(id, retryCount, s, net);
            IsPrefix(Backoffs(r.trace), BackoffSchedule(retryCount)) && (r.outcome.Exhausted? <==> |Backoffs(r.trace)| == retryCount)
  {
    var st := AttemptName(id, retryCount, s, net);
    var inner := FetchName(id, budget, s', net');
    AttemptEffects(id, retryCount, s, net);
    FetchNameUnfold(id, retryCount, s, net);
    BackoffsAgain(retryCount, budget, st.trace, inner.trace, inner.outcome.Exhausted?);
  }

  /** The back-off waits of a pass that goes round again, then of the loop after it. */
  lemma BackoffsAgain(retryCount: nat, budget: nat, head: seq<Event>, tail: seq<Event>, exhausted: bool)
    requires 1 <= retryCount <= Retries && retryCount - 1 <= budget <= retryCount
    requires Backoffs(head) == if budget < retryCount then [BackoffWait(retryCount)] else []
    requires IsPrefix(Backoffs(tail), BackoffSchedule(budget)) && (exhausted <==> |Backoffs(tail)| == budget)
    ensures IsPrefix(Backoffs(head + tail), BackoffSchedule(retryCount))
    ensures exhausted <==> |Backoffs(head + tail)| == retryCount
  {
    PickAppend(head, tail, BackoffOf);
    ScheduleCons(retryCount, budget, Backoffs(head), Backoffs(tail));
  }

  /** A connection error spends one attempt and one back-off wait, and changes nothing else. */
  lemma AttemptConnErr(id: string, retryCount: nat, s: Session, tracks: seq<Response<string>>,
                       tokens: seq<Response<string>>)
    requires 1 <= retryCount <= Retries && ValidSession(s)
    ensures var script: seq<Response<string>> := [ConnErr] + tracks;
            AttemptName(id, retryCount, s, Network(script, tokens))
            == Again(retryCount - 1, s, Network(tracks, tokens),
                     [Get(TrackUrl(id), [], Some(s.headers)), Sleep(BackoffWait(retryCount), ConnectionBackoff)])
  {
    var script: seq<Response<string>> := [ConnErr] + tracks;
    assert script[0] == ConnErr && script[1..] == tracks;
  }

  /** `retryCount` connection errors in a row end the loop with no entry, and
      nothing else is taken from the network. */
  lemma {:induction false} ConnErrsExhaust(id: string, retryCount: nat, s: Session, net: Network)
    requires retryCount <= Retries && ValidSession(s) && LeadingConnErrs(net.tracks, retryCount)
    ensures var r := FetchName(id, retryCount, s, net);
            r.outcome == Exhausted && r.net == Network(net.tracks[retryCount..], net.tokens) && r.session == s
    decreases retryCount
  {
    if retryCount > 0 {
      var more := Network(net.tracks[1..], net.tokens);
      LeadingTail(net.tracks, retryCount);
      ConnErrsExhaust(id, retryCount - 1, s, more);
      ConnErrsExhaustStep(id, retryCount, s, net, more, net.tracks[retryCount..]);
    }
  }

  /** Past a leading connection error, one fewer lead the rest of the script. */
  lemma LeadingTail<B>(script: seq<Response<B>>, k: nat)
    requires 1 <= k && LeadingConnErrs(script, k)
    ensures Receive(script) == (ConnErr, script[1..])
    ensures LeadingConnErrs(script[1..], k - 1) && script[1..][k - 1..] == script[k..]
  {
    forall i | 0 <= i < k - 1 ensures script[1..][i].ConnErr? {
      assert script[1..][i] == script[i + 1];
    }
  }

  /** The inductive step of ConnErrsExhaust, with the shorter run's outcome as a premise. */
  lemma ConnErrsExhaustStep(id: string, retryCount: nat, s: Session, net: Network, more: Network,
                            rest: seq<Response<string>>)
    requires 1 <= retryCount <= Retries && ValidSession(s)
    requires Receive(net.tracks) == (ConnErr, more.tracks) && more.tokens == net.tokens
    requires var inner := FetchName(id, retryCount - 1, s, more);
             inner.outcome == Exhausted && inner.net == Network(rest, net.tokens) && inner.session == s
    ensures var r := FetchName(id, retryCount, s, net);
            r.outcome == Exhausted && r.net == Network(rest, net.tokens) && r.session == s
  {
    ConnErrStep(id, retryCount, s, net, more);
  }

  /** After a connection error the loop carries on as a loop with one attempt fewer. */
  lemma ConnErrStep(id: string, retryCount: nat, s: Session, net: Network, more: Network)
    requires 1 <= retryCount <= Retries && ValidSession(s)
    requires Receive(net.tracks) == (ConnErr, more.tracks) && more.tokens == net.tokens
    ensures var r := FetchName(id, retryCount, s, net);
            var inner := FetchName(id, retryCount - 1, s, more);
            r.outcome == inner.outcome && r.net == inner.net && r.session == inner.session
  {
    AttemptConnErrHead(id, retryCount, s, net, more);
    AgainStep(id, retryCount, s, net, retryCount - 1, s, more);
  }

  /** AttemptConnErr for a network given by its first answer and the rest. */
  lemma AttemptConnErrHead(id: string, retryCount: nat, s: Session, net: Network, more: Network)
    requires 1 <= retryCount <= Retries && ValidSession(s)
    requires Receive(net.tracks) == (ConnErr, more.tracks) && more.tokens == net.tokens
    ensures var st := AttemptName(id, retryCount, s, net);
            st.Again? && st.budget == retryCount - 1 && st.session == s && st.net == more
  {
    assert AttemptName(id, retryCount, s, net) == OnAnswer(id, retryCount, s, ConnErr, more.tracks, net.tokens);
  }

  /** A pass that goes round again leaves the rest of the loop to the pass after it. */
  lemma AgainStep(id: string, retryCount: nat, s: Session, net: Network, budget: nat, s': Session, net': Network)
    requires 1 <= retryCount <= Retries && ValidSession(s)
    requires var st := AttemptName(id, retryCount, s, net);
             st.Again? && st.budget == budget && st.session == s' && st.net == net'
    ensures budget <= Retries && ValidSession(s')
    ensures var r := FetchName(id, retryCount, s, net);
            var inner := FetchName(id, budget, s', net');
            r.outcome == inner.outcome && r.net == inner.net && r.session == inner.session
  {
    FetchNameUnfold(id, retryCount, s, net);
  }

  /** Five connection errors for one id sleep 1, 2, 4, 8 and 16 seconds and
      append nothing, so the names list is shorter than the ids. */
  lemma FiveConnectionErrors(id: string, s: Session, net: Network)
    requires ValidSession(s) && LeadingConnErrs(net.tracks, Retries)
    ensures var r := FetchName(id, Retries, s, net);
            r.outcome == Exhausted && Backoffs(r.trace) == [1, 2, 4, 8, 16]
    ensures GetTrackNames([id], s, net).outcome == Done([])
  {
    ConnErrsExhaust(id, Retries, s, net);
    FetchNameBackoffs(id, Retries, s, net);
    FullBackoffSchedule();
    ExhaustedAddsNothing(id, s, net);
  }

  /** An id given up on contributes no entry. */
  lemma ExhaustedAddsNothing(id: string, s: Session, net: Network)
    requires ValidSession(s) && FetchName(id, Retries, s, net).outcome == Exhausted
    ensures GetTrackNames([id], s, net).outcome == Done([])
  {
    var first := FetchName(id, Retries, s, net);
    assert [id][1..] == [];
    assert GetTrackNames([id][1..], first.session, first.net).outcome == Done([]);
  }

  /** A 429 costs one `Retry-After` wait (30 s without the header) and no budget. */
  lemma RateLimitKeepsBudget(id: string, retryCount: nat, s: Session, header: Option<nat>,
                             tracks: seq<Response<string>>, tokens: seq<Response<string>>)
    requires 1 <= retryCount <= Retries && ValidSession(s)
    ensures var r := FetchName(id, retryCount, s, Network([Status(429, header)] + tracks, tokens));
            var r' := FetchName(id, retryCount, s, Network(tracks, tokens));
            r.outcome == r'.outcome && r.session == r'.session && r.net == r'.net
            && r.trace == [Get(TrackUrl(id), [], Some(s.headers)), Sleep(RetryAfterWait(header), RateLimited)] + r'.trace
  {
    var script := [Status(429, header)] + tracks;
    assert script[0] == Status(429, header) && script[1..] == tracks;
    FetchNameUnfold(id, retryCount, s, Network(script, tokens));
  }

  /** A 200 ends the loop at once with the name, whatever budget is left. */
  lemma OkAnswered(id: string, retryCount: nat, s: Session, name: string,
                   rest: seq<Response<string>>, tokens: seq<Response<string>>)
    requires 1 <= retryCount <= Retries && ValidSession(s)
    ensures FetchName(id, retryCount, s, Network([Ok(name)] + rest, tokens))
            == IdRun(Named(name), s, Network(rest, tokens), [Get(TrackUrl(id), [], Some(s.headers))])
  {
    assert ([Ok(name)] + rest)[1..] == rest;
  }

  /** A 429 followed by a 200 yields the name after exactly one rate-limit wait
      and no back-off. */
  lemma RateLimitedOnceThenOk(id: string, retryCount: nat, s: Session, header: Option<nat>, name: string,
                              rest: seq<Response<string>>, tokens: seq<Response<string>>)
    requires 1 <= retryCount <= Retries && ValidSession(s)
    ensures var r := FetchName(id, retryCount, s, Network([Status(429, header), Ok(name)] + rest, tokens));
            r.outcome == Named(name) && Backoffs(r.trace) == []
            && r.trace == [Get(TrackUrl(id), [], Some(s.headers)), Sleep(RetryAfterWait(header), RateLimited),
                           Get(TrackUrl(id), [], Some(s.headers))]
  {
    var request := Get(TrackUrl(id), [], Some(s.headers));
    var wait := Sleep(RetryAfterWait(header), RateLimited);
    var later := [Ok(name)] + rest;
    assert [Status(429, header), Ok(name)] + rest == [Status(429, header)] + later;
    RateLimitKeepsBudget(id, retryCount, s, header, later, tokens);
    OkAnswered(id, retryCount, s, name, rest, tokens);
    var r := FetchName(id, retryCount, s, Network([Status(429, header)] + later, tokens));
    var r' := FetchName(id, retryCount, s, Network(later, tokens));
    assert r'.outcome == Named(name) && r'.trace == [request];
    assert r.outcome == r'.outcome && r.trace == [request, wait] + r'.trace;
    assert r.trace == [request, wait, request];
    PickThree(request, wait, request, BackoffOf);
  }

  /** A 401 followed by a 200 on the retry: one rotation, a fresh token from the
      next credential set, and the retry carries `Bearer <new token>`. */
  lemma UnauthorizedThenOk(id: string, s: Session, header: Option<nat>, name: string, token: string,
                           rest: seq<Response<string>>, tokens: seq<Response<string>>)
    requires ValidSession(s)
    ensures var r := FetchName(id, Retries, s, Network([Status(401, header), Ok(name)] + rest, [Ok(token)] + tokens));
            var (index, account) := RotateCredentials(s.index);
            && r.outcome == Named(name)
            && r.session == Session(index, UpdateHeaders(token))
            && r.net == Network(rest, tokens)
            && r.trace == [Get(TrackUrl(id), [], Some(s.headers)), Rotate(index), TokenRequest(account),
                           Get(TrackUrl(id), [], Some(UpdateHeaders(token)))]
  {
    var net := Network([Status(401, header), Ok(name)] + rest, [Ok(token)] + tokens);
    var (index, account) := RotateCredentials(s.index);
    var s' := Session(index, UpdateHeaders(token));
    var net' := Network([Ok(name)] + rest, tokens);
    assert ([Status(401, header), Ok(name)] + rest)[1..] == [Ok(name)] + rest;
    assert ([Ok(token)] + tokens)[1..] == tokens;
    var request := Get(TrackUrl(id), [], Some(s.headers));
    assert AttemptName(id, Retries, s, net) == Again(Retries, s', net', [request, Rotate(index), TokenRequest(account)]);
    FetchNameUnfold(id, Retries, s, net);
    OkAnswered(id, Retries, s', name, rest, tokens);
  }

  /** A refused token request after a 401 raises out of get_track_names: the
      exception is not among the caught connection errors. */
  lemma TokenRefusalEscapes(ids: seq<string>, s: Session, header: Option<nat>, status: ErrorStatus,
                            retryHeader: Option<nat>, tracks: seq<Response<string>>, tokens: seq<Response<string>>)
    requires ValidSession(s) && |ids| > 0
    ensures GetTrackNames(ids, s, Network([Status(401, header)] + tracks, [Status(status, retryHeader)] + tokens)).outcome
            == Raised(TokenRejected(status))
  {
  }

  function Count401(rs: seq<Response<string>>): nat {
    if rs == [] then 0 else (if Is401(rs[0]) then 1 else 0) + Count401(rs[1..])
  }

  function Rotations(trace: seq<Event>): nat {
    |Pick(trace, RotationOf)|
  }

  lemma Count401Append(a: seq<Response<string>>, b: seq<Response<string>>)
    ensures Count401(a + b) == Count401(a) + Count401(b)
  {
    if a == [] {
      assert a + b == b;
    } else {
      assert (a + b)[1..] == a[1..] + b;
      Count401Append(a[1..], b);
    }
  }

  lemma ConsumedSplit<T>(a: seq<T>, b: seq<T>, c: seq<T>)
    requires IsSuffix(b, a) && IsSuffix(c, b)
    ensures Consumed(a, c) == Consumed(a, b) + Consumed(b, c)
  {
  }

  /** Each 401 answer triggers exactly one rotation: the rotations of one id's
      loop equal the 401s it took from the track endpoint. */
  lemma {:induction false} RotationPer401(id: string, retryCount: nat, s: Session, net: Network)
    requires retryCount <= Retries && ValidSession(s)
    ensures var r := FetchName(id, retryCount, s, net);
            Rotations(r.trace) == Count401(Consumed(net.tracks, r.net.tracks))
    decreases |net.tracks|, retryCount
  {
    var r := FetchName(id, retryCount, s, net);
    if retryCount == 0 {
      assert Consumed(net.tracks, r.net.tracks) == [];
    } else {
      var st := AttemptName(id, retryCount, s, net);
      AttemptEffects(id, retryCount, s, net);
      if st.Again? {
        var inner := FetchName(id, st.budget, st.session, st.net);
        RotationPer401(id, st.budget, st.session, st.net);
        PickAppend(st.trace, inner.trace, RotationOf);
        ConsumedSplit(net.tracks, st.net.tracks, inner.net.tracks);
        Count401Append(Consumed(net.tracks, st.net.tracks), Consumed(st.net.tracks, inner.net.tracks));
      }
    }
  }

  // ---------------------------------------------------------------------------
  // Properties of the whole pass

  function SomeAll(names: seq<string>): (os: seq<Option<string>>)
    ensures |os| == |names| && forall i :: 0 <= i < |names| ==> os[i] == Some(names[i])
  {
    if names == [] then [] else [Some(names[0])] + SomeAll(names[1..])
  }

  /** The requests of a pass over `ids` in which every id is answered at once. */
  function Requests(ids: seq<string>, headers: string): (r: seq<Event>)
    ensures |r| == |ids| && forall k :: 0 <= k < |ids| ==> r[k] == Get(TrackUrl(ids[k]), [], Some(headers))
  {
    if ids == [] then [] else [Get(TrackUrl(ids[0]), [], Some(headers))] + Requests(ids[1..], headers)
  }

  /** When every id is answered with a 200, entry k is the name answered to
      id k, the requests go out in id order, and nothing sleeps or rotates. */
  lemma {:induction false} AllAnswered(ids: seq<string>, names: seq<string>, s: Session,
                                       rest: seq<Response<string>>, tokens: seq<Response<string>>)
    requires ValidSession(s) && |names| == |ids|
    ensures var r := GetTrackNames(ids, s, Network(OkAll(names) + rest, tokens));
            && r.outcome == Done(SomeAll(names))
            && r.session == s && r.net == Network(rest, tokens)
            && r.trace == Requests(ids, s.headers)
    decreases |ids|
  {
    if ids != [] {
      var later := OkAll(names[1..]) + rest;
      assert OkAll(names) + rest == [Ok(names[0])] + later;
      OkAnswered(ids[0], Retries, s, names[0], later, tokens);
      AllAnswered(ids[1..], names[1..], s, rest, tokens);
    }
  }

  // ---------------------------------------------------------------------------
  // A whole pass, one block of answers per id

  /** How the track answers for one id end: a 200, a status other than 401 and
      429, or a connection error on every attempt. */
  datatype BlockEnd = Answer(name: string) | Fail(code: ErrorStatus, retryAfter: Option<nat>) | GiveUp

  predicate ValidEnd(e: BlockEnd) {
    e.Fail? ==> e.code != 401 && e.code != 429
  }

  /** The track answers one id gets: 429s with these `Retry-After` headers,
      then how it ends. */
  datatype Block = Block(limits: seq<Option<nat>>, end: BlockEnd)

  function EndAnswers(e: BlockEnd): seq<Response<string>> {
    match e
    case Answer(name) => [Ok(name)]
    case Fail(code, retryAfter) => [Status(code, retryAfter)]
    case GiveUp => seq(Retries, _ => ConnErr)
  }

  function BlockAnswers(b: Block): seq<Response<string>>
    decreases |b.limits|
  {
    if b.limits == [] then EndAnswers(b.end)
    else [Status(429, b.limits[0])] + BlockAnswers(Block(b.limits[1..], b.end))
  }

  /** What the id is meant to contribute to `track_names`. */
  function BlockEntry(b: Block): seq<Option<string>> {
    match b.end
    case Answer(name) => [Some(name)]
    case Fail(_, _) => [None]
    case GiveUp => []
  }

  function AllAnswers(blocks: seq<Block>): seq<Response<string>> {
    if blocks == [] then [] else BlockAnswers(blocks[0]) + AllAnswers(blocks[1..])
  }

  function AllEntries(blocks: seq<Block>): seq<Option<string>> {
    if blocks == [] then [] else BlockEntry(blocks[0]) + AllEntries(blocks[1..])
  }

  /** Any other status ends the loop at once with a None entry. */
  lemma StatusMissing(id: string, retryCount: nat, s: Session, code: ErrorStatus, header: Option<nat>,
                      more: seq<Response<string>>, tokens: seq<Response<string>>)
    requires 1 <= retryCount <= Retries && ValidSession(s) && code != 401 && code != 429
    ensures FetchName(id, retryCount, s, Network([Status(code, header)] + more, tokens))
            == IdRun(Missing, s, Network(more, tokens), [Get(TrackUrl(id), [], Some(s.headers))])
  {
    assert ([Status(code, header)] + more)[1..] == more;
  }

  /** The end of a block decides the id's entry and leaves the session and the
      token script alone. */
  lemma EndOutcome(id: string, e: BlockEnd, s: Session, more: seq<Response<string>>, tokens: seq<Response<string>>)
    requires ValidEnd(e) && ValidSession(s)
    ensures var r := FetchName(id, Retries, s, Network(EndAnswers(e) + more, tokens));
            !r.outcome.Escaped? && Entry(r.outcome) == BlockEntry(Block([], e))
            && r.session == s && r.net == Network(more, tokens)
  {
    match e
    case Answer(name) =>
      OkAnswered(id, Retries, s, name, more, tokens);
    case Fail(code, header) =>
      StatusMissing(id, Retries, s, code, header, more, tokens);
    case GiveUp =>
      var net := Network(EndAnswers(e) + more, tokens);
      assert LeadingConnErrs(net.tracks, Retries);
      assert net.tracks[Retries..] == more;
      ConnErrsExhaust(id, Retries, s, net);
  }

  /** One id's block: its 429s cost no attempt, and its end decides the entry;
      the session and the token script are untouched. */
  lemma {:induction false} BlockOutcome(id: string, b: Block, s: Session, more: seq<Response<string>>,
                                        tokens: seq<Response<string>>)
    requires ValidEnd(b.end) && ValidSession(s)
    ensures var r := FetchName(id, Retries, s, Network(BlockAnswers(b) + more, tokens));
            !r.outcome.Escaped? && Entry(r.outcome) == BlockEntry(b)
            && r.session == s && r.net == Network(more, tokens)
    decreases |b.limits|
  {
    if b.limits == [] {
      EndOutcome(id, b.end, s, more, tokens);
    } else {
      var inner := Block(b.limits[1..], b.end);
      assert BlockAnswers(b) + more == [Status(429, b.limits[0])] + (BlockAnswers(inner) + more);
      RateLimitKeepsBudget(id, Retries, s, b.limits[0], BlockAnswers(inner) + more, tokens);
      BlockOutcome(id, inner, s, more, tokens);
    }
  }

  /** A pass whose track answers come as one block per id, in id order: the
      list is the entries of the blocks in turn (a name for a 200, None for
      another status, nothing for an id whose attempts were all spent), and
      the session and the token script are untouched. */
  lemma {:induction false} NamesFromBlocks(ids: seq<string>, blocks: seq<Block>, s: Session,
                                           more: seq<Response<string>>, tokens: seq<Response<string>>)
    requires ValidSession(s) && |blocks| == |ids| && forall k :: 0 <= k < |blocks| ==> ValidEnd(blocks[k].end)
    ensures var r := GetTrackNames(ids, s, Network(AllAnswers(blocks) + more, tokens));
            r.outcome == Done(AllEntries(blocks)) && r.session == s && r.net == Network(more, tokens)
    decreases |ids|
  {
    if ids != [] {
      var later := AllAnswers(blocks[1..]) + more;
      assert AllAnswers(blocks) + more == BlockAnswers(blocks[0]) + later;
      BlockOutcome(ids[0], blocks[0], s, later, tokens);
      NamesFromBlocks(ids[1..], blocks[1..], s, more, tokens);
    }
  }

  /** A 404 for the first id, five connection errors for the second, a 429
      and a 200 for the third: None, nothing, then the name. */
  lemma MixedPass(a: string, b: string, c: string, name: string, header: Option<nat>, s: Session,
                  tokens: seq<Response<string>>)
    requires ValidSession(s)
    ensures GetTrackNames([a, b, c], s, Network([Status(404, None), ConnErr, ConnErr, ConnErr, ConnErr, ConnErr,
                                                Status(429, header), Ok(name)], tokens)).outcome
            == Done([None, Some(name)])
  {
    var blocks := [Block([], Fail(404, None)), Block([], GiveUp), Block([header], Answer(name))];
    MixedBlocks(name, header);
    NamesFromBlocks([a, b, c], blocks, s, [], tokens);
  }

  lemma MixedBlocks(name: string, header: Option<nat>)
    ensures var blocks := [Block([], Fail(404, None)), Block([], GiveUp), Block([header], Answer(name))];
            && AllAnswers(blocks) + [] == [Status(404, None), ConnErr, ConnErr, ConnErr, ConnErr, ConnErr,
                                           Status(429, header), Ok(name)]
            && AllEntries(blocks) == [None, Some(name)]
            && forall k :: 0 <= k < |blocks| ==> ValidEnd(blocks[k].end)
  {
    var b0, b1, b2 := Block([], Fail(404, None)), Block([], GiveUp), Block([header], Answer(name));
    var blocks := [b0, b1, b2];
    var t2 := BlockAnswers(b2);
    RateLimitThenName(header, name);
    FiveConnErrs();
    AllAnswersThree(b0, b1, b2);
    assert AllEntries([b2]) == [Some(name)];
    assert AllEntries([b1, b2]) == [Some(name)];
  }

  lemma RateLimitThenName(header: Option<nat>, name: string)
    ensures BlockAnswers(Block([header], Answer(name))) == [Status(429, header), Ok(name)]
  {
    assert BlockAnswers(Block([header], Answer(name))) == [Status(429, header)] + BlockAnswers(Block([], Answer(name)));
  }

  lemma FiveConnErrs()
    ensures BlockAnswers(Block([], GiveUp)) == [ConnErr, ConnErr, ConnErr, ConnErr, ConnErr]
  {
  }

  lemma AllAnswersThree(b0: Block, b1: Block, b2: Block)
    ensures AllAnswers([b0, b1, b2]) == BlockAnswers(b0) + BlockAnswers(b1) + BlockAnswers(b2)
  {
    assert [b0, b1, b2][1..] == [b1, b2] && [b1, b2][1..] == [b2] && [b2][1..] == [];
    assert AllAnswers([b2]) == BlockAnswers(b2) + AllAnswers([]);
  }
}
