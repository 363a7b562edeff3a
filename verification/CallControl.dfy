/**
 The modem's call state: the engine thread's commands and the requests of other threads, as atomic
 steps between two releases of the modem's lock. The lock is released around every callback to the
 endpoint, and while an engine is being detached.
*/
module CallControl {

  datatype CallState = Cleared | Dialing | Alerted | Called | Answering | Established | Releasing

  /** The modem's state, as far as calls depend on it. */
  datatype State = Command | Dial | ConnectWait | Busy

  /** The engine thread: between commands, detaching engines inside `OnHook`, or inside a callback. */
  datatype Engine = Idle | Detaching | InClearCall | InDial | InAnswer

  /** What a change of call state was made for. */
  datatype Cause = OnDial | OnAnswer | OnCall | OnAlerting | OnEstablished | OnTryNext | OnRelease | OnCleared

  datatype Change = Change(from: CallState, to: CallState, cause: Cause, offHook: bool)

  /** Call tokens are numbered as they are stored; `stored` and `sent` say which was stored last, and which went out in a clearcall. */
  datatype Token = Token(current: int, stored: nat, sent: seq<nat>)

  const NO_TOKEN: int := -1

  datatype Line = Line(
    callState: CallState,
    offHook: bool,
    lockReleasing: nat,
    state: State,
    token: Token,
    engine: Engine,
    changes: seq<Change>)

  const START := Line(Cleared, false, 0, Command, Token(NO_TOKEN, 0, []), Idle, [])

  function SetCallState(l: Line, to: CallState, cause: Cause): Line {
    if l.callState == to then l
    else l.(callState := to, changes := l.changes + [Change(l.callState, to, cause, l.offHook)])
  }

  function Forget(t: Token): Token { t.(current := NO_TOKEN) }

  /** A token is stored, if it is not empty. */
  function Store(t: Token, some: bool): Token { if some then t.(current := t.stored, stored := t.stored + 1) else Forget(t) }

  function SendToken(t: Token): Token {
    if t.current < 0 then t else t.(sent := t.sent + [t.current], current := NO_TOKEN)
  }

  // ------------------------------------------------------------- releasing

  /** `_ClearCall`, up to its callback. */
  function BeginRelease(l: Line): Line {
    SetCallState(l.(lockReleasing := l.lockReleasing + 1, token := SendToken(l.token)), Releasing, OnRelease)
  }

  /** The end of `_ClearCall`: the last release on an on-hook line clears the call. */
  function EndRelease(l: Line): Line
    requires l.lockReleasing > 0
  {
    var l1 := l.(lockReleasing := l.lockReleasing - 1);
    if l1.lockReleasing == 0 && !l1.offHook then SetCallState(l1, Cleared, OnCleared) else l1
  }

  /** `_ClearCall`, which makes a callback only if there is a token to clear; a request never has one when it comes here. */
  function EngineClear(l: Line): Line {
    if l.callState == Cleared then l.(engine := Idle)
    else if l.token.current >= 0 then BeginRelease(l).(engine := InClearCall)
    else EndRelease(BeginRelease(l)).(engine := Idle)
  }

  /** `OnHook`, up to the detaching of engines. */
  function OnHook(l: Line): Line {
    if l.offHook then l.(offHook := false, state := Command, engine := Detaching) else EngineClear(l)
  }

  // ------------------------------------------------------------- the engine thread

  /** `ATD`: off-hook, and on to the dial step. */
  function DialCommand(l: Line): Line { l.(offHook := true, state := Dial) }

  /** The step `stDial` of `CheckState`, up to its callback. */
  function DialStep(l: Line): Line {
    if l.callState == Cleared then SetCallState(l, Dialing, OnDial).(state := ConnectWait, engine := InDial)
    else OnHook(l)
  }

  function DialReturns(l: Line, confirm: bool, some: bool): Line {
    if confirm then l.(token := Store(l.token, some), engine := Idle) else OnHook(l)
  }

  /** `Answer` of a line not yet connected, up to its callback. */
  function Answer(l: Line): Line {
    var l1 := l.(offHook := true);
    if l1.callState == Called then SetCallState(l1, Answering, OnAnswer).(state := ConnectWait, engine := InAnswer)
    else OnHook(l1)
  }

  function AnswerReturns(l: Line, confirm: bool): Line { if confirm then l.(engine := Idle) else OnHook(l) }

  // ------------------------------------------------------------- requests

  function CallRequest(l: Line, some: bool): Line {
    if l.callState != Cleared || l.offHook then l else SetCallState(l, Called, OnCall).(token := Store(l.token, some))
  }

  /** The request has no token to match, or the right one. */
  predicate Matches(l: Line, same: bool) { l.token.current < 0 || same }

  /** `ring`: the modem is in audio class and plays no tone, so that it goes on to play the ringing. */
  function AlertingRequest(l: Line, same: bool, ring: bool): Line {
    if l.callState == Dialing && l.offHook && Matches(l, same) then
      SetCallState(l, Alerted, OnAlerting).(state := if l.state == ConnectWait && ring then Busy else l.state)
    else l
  }

  function EstablishedRequest(l: Line, same: bool): Line {
    if (l.callState == Dialing || l.callState == Alerted || l.callState == Answering) && l.offHook && Matches(l, same) then
      SetCallState(l, Established, OnEstablished).(state := if l.state == ConnectWait then Busy else l.state)
    else l
  }

  /** A clearcall that says to dial the next number, or releases; the token is dropped, so there is no callback. */
  function ClearRequest(l: Line, same: bool, tryNext: bool): Line {
    if l.callState == Cleared || l.callState == Releasing || !Matches(l, same) then l
    else
      var l1 := l.(token := Forget(l.token));
      if l1.callState == Dialing && l1.state == ConnectWait && tryNext then SetCallState(l1, Cleared, OnTryNext).(state := Dial)
      else EndRelease(BeginRelease(l1))
  }

  // ------------------------------------------------------------- runs

  datatype Event =
    | EOffHook | EDialCommand | EDialStep | EDialReturns(confirm: bool, some: bool) | EAnswer | EAnswerReturns(confirm: bool)
    | EOnHook | EDetached | EClearReturns | EOtherState
    | RCall(some: bool) | RAlerting(same: bool, ring: bool) | REstablished(same: bool) | RClear(same: bool, tryNext: bool)

  /** The engine thread does one thing at a time; an event that cannot happen now changes nothing. */
  function Do(l: Line, e: Event): Line {
    match e
    case EOffHook => if l.engine == Idle then l.(offHook := true) else l
    case EDialCommand => if l.engine == Idle then DialCommand(l) else l
    case EDialStep => if l.engine == Idle && l.state == Dial then DialStep(l) else l
    case EDialReturns(confirm, some) => if l.engine == InDial then DialReturns(l, confirm, some) else l
    case EAnswer => if l.engine == Idle then Answer(l) else l
    case EAnswerReturns(confirm) => if l.engine == InAnswer then AnswerReturns(l, confirm) else l
    case EOnHook => if l.engine == Idle then OnHook(l) else l
    case EDetached => if l.engine == Detaching then EngineClear(l) else l
    case EClearReturns => if l.engine == InClearCall && l.lockReleasing > 0 then EndRelease(l).(engine := Idle) else l
    case EOtherState => if l.engine == Idle then l.(state := if l.offHook then Busy else Command) else l
    case RCall(some) => CallRequest(l, some)
    case RAlerting(same, ring) => AlertingRequest(l, same, ring)
    case REstablished(same) => EstablishedRequest(l, same)
    case RClear(same, tryNext) => ClearRequest(l, same, tryNext)
  }

  function Run(events: seq<Event>): Line {
    if events == [] then START else Do(Run(events[..|events| - 1]), events[|events| - 1])
  }

  // ------------------------------------------------------------- the documented table

  /** The arrows of the table of call states, with the hook they are drawn under. */
  predicate Documented(c: Change) {
    match c.cause
    case OnDial => c.from == Cleared && c.to == Dialing && c.offHook
    case OnAnswer => c.from == Called && c.to == Answering && c.offHook
    case OnCall => c.from == Cleared && c.to == Called && !c.offHook
    case OnAlerting => c.from == Dialing && c.to == Alerted && c.offHook
    case OnEstablished => (c.from == Dialing || c.from == Alerted || c.from == Answering) && c.to == Established && c.offHook
    case OnTryNext => c.from == Dialing && c.to == Cleared && c.offHook
    case OnRelease => c.from != Cleared && c.from != Releasing && c.to == Releasing
    case OnCleared => c.from == Releasing && c.to == Cleared && !c.offHook
  }

  /** The changes lead from one call state to the next. */
  predicate Chained(changes: seq<Change>, now: CallState) {
    && (forall i :: 0 <= i < |changes| ==> Documented(changes[i]))
    && (forall i :: 0 < i < |changes| ==> changes[i - 1].to == changes[i].from)
    && (if changes == [] then now == Cleared else changes[0].from == Cleared && changes[|changes| - 1].to == now)
  }

  /** No token goes out twice, and none that is still to be cleared has gone out. */
  predicate TokensOnce(t: Token) {
    && t.current < t.stored
    && (forall i :: 0 <= i < |t.sent| ==> t.sent[i] < t.stored && t.sent[i] != t.current)
    && (forall i, j :: 0 <= i < j < |t.sent| ==> t.sent[i] != t.sent[j])
  }

  predicate Sound(l: Line) {
    && Chained(l.changes, l.callState)
    && TokensOnce(l.token)
    && l.lockReleasing == (if l.engine == InClearCall then 1 else 0)
    && (l.lockReleasing > 0 ==> l.callState == Releasing)
    && (!l.offHook && l.lockReleasing == 0 && l.engine != Detaching ==> l.callState == Cleared || l.callState == Called)
    && (l.engine == Detaching || l.engine == InClearCall ==> !l.offHook)
    && (l.engine == InDial || l.engine == InAnswer || l.state == Dial || l.state == ConnectWait ==> l.offHook)
  }

  lemma SetSound(l: Line, to: CallState, cause: Cause)
    requires Chained(l.changes, l.callState) && (l.callState == to || Documented(Change(l.callState, to, cause, l.offHook)))
    ensures var l1 := SetCallState(l, to, cause); Chained(l1.changes, l1.callState)
  {
  }

  lemma TokenSound(t: Token)
    requires TokensOnce(t)
    ensures (forall some :: TokensOnce(Store(t, some))) && TokensOnce(Forget(t)) && TokensOnce(SendToken(t))
  {
  }

  /** The history of call states and tokens is in order. */
  predicate Good(l: Line) { Chained(l.changes, l.callState) && TokensOnce(l.token) }

  lemma SetGood(l: Line, to: CallState, cause: Cause)
    requires Good(l) && (l.callState == to || Documented(Change(l.callState, to, cause, l.offHook)))
    ensures Good(SetCallState(l, to, cause))
  {
    SetSound(l, to, cause);
  }

  lemma BeginGood(l: Line)
    requires Good(l) && l.callState != Cleared
    ensures Good(BeginRelease(l))
  {
    TokenSound(l.token);
    SetGood(l.(lockReleasing := l.lockReleasing + 1, token := SendToken(l.token)), Releasing, OnRelease);
  }

  lemma EndGood(l: Line)
    requires Good(l) && l.lockReleasing > 0 && l.callState == Releasing
    ensures Good(EndRelease(l))
  {
    if !l.offHook { SetGood(l.(lockReleasing := l.lockReleasing - 1), Cleared, OnCleared); }
  }

  lemma EngineClearSound(l: Line)
    requires Good(l) && l.lockReleasing == 0
    requires !l.offHook && l.state != Dial && l.state != ConnectWait
    ensures Sound(EngineClear(l))
  {
    if l.callState != Cleared {
      BeginGood(l);
      EndGood(BeginRelease(l));
    }
    hide Chained, TokensOnce, SendToken;
  }

  lemma OnHookSound(l: Line)
    requires Sound(l) && (l.engine == Idle || l.engine == InDial || l.engine == InAnswer)
    ensures Sound(OnHook(l))
  {
    hide Chained, TokensOnce, EngineClear;
    if !l.offHook { EngineClearSound(l); }
  }

  lemma EngineSound(l: Line, e: Event)
    requires Sound(l)
    requires e.EDialStep? || e.EDialReturns? || e.EAnswer? || e.EAnswerReturns? || e.EOnHook? || e.EDetached? || e.EClearReturns?
    ensures Sound(Do(l, e))
  {
    hide Chained, TokensOnce, EngineClear, OnHook, BeginRelease;
    TokenSound(l.token);
    match e
    case EDialStep =>
      if l.engine == Idle && l.state == Dial {
        if l.callState == Cleared { SetGood(l, Dialing, OnDial); } else { OnHookSound(l); }
      }
    case EDialReturns(confirm, _) => if l.engine == InDial && !confirm { OnHookSound(l); }
    case EAnswer =>
      var l1 := l.(offHook := true);
      if l.engine == Idle {
        if l.callState == Called { SetGood(l1, Answering, OnAnswer); } else { OnHookSound(l1); }
      }
    case EAnswerReturns(confirm) => if l.engine == InAnswer && !confirm { OnHookSound(l); }
    case EOnHook => if l.engine == Idle { OnHookSound(l); }
    case EDetached => if l.engine == Detaching { EngineClearSound(l); }
    case EClearReturns => if l.engine == InClearCall { EndGood(l); }
  }

  lemma RequestSound(l: Line, e: Event)
    requires Sound(l) && (e.RCall? || e.RAlerting? || e.REstablished? || e.RClear?)
    ensures Sound(Do(l, e))
  {
    hide Chained, TokensOnce;
    TokenSound(l.token);
    match e
    case RCall(_) => if l.callState == Cleared && !l.offHook { SetGood(l, Called, OnCall); }
    case RAlerting(_, _) => if l.callState == Dialing && l.offHook { SetGood(l, Alerted, OnAlerting); }
    case REstablished(_) =>
      if (l.callState == Dialing || l.callState == Alerted || l.callState == Answering) && l.offHook { SetGood(l, Established, OnEstablished); }
    case RClear(same, tryNext) => ClearSound(l, same, tryNext);
  }

  lemma ClearSound(l: Line, same: bool, tryNext: bool)
    requires Sound(l)
    ensures Sound(ClearRequest(l, same, tryNext))
  {
    hide Chained, TokensOnce;
    TokenSound(l.token);
    if l.callState != Cleared && l.callState != Releasing && Matches(l, same) {
      var l1 := l.(token := Forget(l.token));
      if l1.callState == Dialing && l1.state == ConnectWait && tryNext {
        SetGood(l1, Cleared, OnTryNext);
      } else {
        BeginGood(l1);
        EndGood(BeginRelease(l1));
      }
    }
  }

  lemma DoSound(l: Line, e: Event)
    requires Sound(l)
    ensures Sound(Do(l, e))
  {
    match e
    case EOffHook => hide Chained, TokensOnce;
    case EDialCommand => hide Chained, TokensOnce;
    case EOtherState => hide Chained, TokensOnce;
    case RCall(_) => RequestSound(l, e);
    case RAlerting(_, _) => RequestSound(l, e);
    case REstablished(_) => RequestSound(l, e);
    case RClear(_, _) => RequestSound(l, e);
    case _ => EngineSound(l, e);
  }

  lemma {:induction false} AlwaysSound(events: seq<Event>)
    ensures Sound(Run(events))
  {
    if events != [] {
      hide Do, Sound;
      AlwaysSound(events[..|events| - 1]);
      DoSound(Run(events[..|events| - 1]), events[|events| - 1]);
    } else {
      assert Sound(START);
    }
  }

  /** In every run the call state moves along arrows of the table only, one after the other. */
  lemma {:induction false} OnlyArrows(events: seq<Event>)
    ensures var l := Run(events);
      && (forall i :: 0 <= i < |l.changes| ==> Documented(l.changes[i]))
      && (forall i :: 0 < i < |l.changes| ==> l.changes[i - 1].to == l.changes[i].from)
      && l.callState == if l.changes == [] then Cleared else l.changes[|l.changes| - 1].to
  {
    AlwaysSound(events);
  }

  /**
   While a clearcall callback is out, the line is being released: no call comes in, and none is dialed,
   answered or established until it is back. There is never more than one out.
  */
  lemma {:induction false} NoCallWhileReleasing(events: seq<Event>, e: Event)
    requires Run(events).lockReleasing > 0
    ensures Run(events).callState == Releasing && Run(events).lockReleasing == 1
    ensures var l, l1 := Run(events), Do(Run(events), e);
      l1.changes == l.changes || (e.EClearReturns? && l1.changes == l.changes + [Change(Releasing, Cleared, OnCleared, false)])
  {
    AlwaysSound(events);
    hide Run, Chained, TokensOnce;
  }

  /** A line that is on-hook, with nothing releasing it, has no call, or one that is ringing. */
  lemma {:induction false} OnHookIsFree(events: seq<Event>)
    ensures var l := Run(events);
      !l.offHook && l.lockReleasing == 0 && l.engine != Detaching ==> l.callState == Cleared || l.callState == Called
  {
    AlwaysSound(events);
  }

  /** Each token stored goes out in at most one clearcall. */
  lemma {:induction false} TokenSentOnce(events: seq<Event>)
    ensures var t := Run(events).token;
      (forall i, j :: 0 <= i < j < |t.sent| ==> t.sent[i] != t.sent[j]) && (forall i :: 0 <= i < |t.sent| ==> t.sent[i] < t.stored)
  {
    AlwaysSound(events);
  }

  // ------------------------------------------------------------- what becomes of a token

  /** A line that is cleared, or whose first call is still being dialed, has no token. */
  predicate TokenFits(l: Line) {
    && l.token.current >= NO_TOKEN && (l.callState == Cleared || l.engine == InDial ==> l.token.current == NO_TOKEN)
    && (l.engine == InDial ==> l.callState != Cleared) && (l.engine == InClearCall ==> l.token.current == NO_TOKEN)
  }

  /** While the dial callback was out, a clearcall request never said to dial the next number. */
  ghost predicate Calm(events: seq<Event>) {
    events == [] ||
      var before, e := events[..|events| - 1], events[|events| - 1];
      Calm(before) && !(e.RClear? && e.tryNext && Run(before).engine == InDial)
  }

  lemma DoTokenFits(l: Line, e: Event)
    requires TokenFits(l) && Sound(l) && !(e.RClear? && e.tryNext && l.engine == InDial)
    ensures TokenFits(Do(l, e))
  {
    hide Chained, TokensOnce;
  }

  lemma {:induction false} CalmFits(events: seq<Event>)
    requires Calm(events)
    ensures TokenFits(Run(events))
  {
    hide Do, Sound;
    if events != [] {
      CalmFits(events[..|events| - 1]);
      AlwaysSound(events[..|events| - 1]);
      DoTokenFits(Run(events[..|events| - 1]), events[|events| - 1]);
    }
  }

  /** The step puts another token, or none, in the place of the one that is stored. */
  predicate Overwrites(l: Line, e: Event) {
    (e.EDialReturns? && e.confirm && l.engine == InDial) || (e.RCall? && l.callState == Cleared && !l.offHook)
  }

  lemma TokenStep(l: Line, e: Event)
    requires l.token.current != NO_TOKEN && TokensOnce(l.token) && l.token.current >= NO_TOKEN && !e.RClear?
    ensures var t, t1 := l.token, Do(l, e).token;
      ((t1.current == t.current && t1.sent == t.sent) || (t1.current == NO_TOKEN && t1.sent == t.sent + [t.current]))
      <==> !Overwrites(l, e)
  {
  }

  /**
   In every run, what is done to a stored token other than by the other side's clearcall: it stays, or goes out in a
   clearcall of the line's own, unless it is overwritten, by a dial callback that is confirmed or by a new call.
  */
  lemma {:induction false} TokenLostIff(events: seq<Event>, e: Event)
    requires Run(events).token.current != NO_TOKEN && !e.RClear?
    ensures var t, t1 := Run(events).token, Do(Run(events), e).token;
      ((t1.current == t.current && t1.sent == t.sent) || (t1.current == NO_TOKEN && t1.sent == t.sent + [t.current]))
      <==> !Overwrites(Run(events), e)
  {
    AlwaysSound(events);
    CurrentOk(events);
    TokenStep(Run(events), e);
    hide Run, Do;
  }

  /** And it is never overwritten unless a clearcall request said to dial the next number while the dial callback was out. */
  lemma {:induction false} CalmKeeps(events: seq<Event>, e: Event)
    requires Calm(events) && Run(events).token.current != NO_TOKEN
    ensures !Overwrites(Run(events), e)
  {
    CalmFits(events);
    hide Run, Calm;
  }

  lemma Next(events: seq<Event>, e: Event)
    ensures Run(events + [e]) == Do(Run(events), e)
  {
    hide Do;
    assert (events + [e])[..|events|] == events;
  }

  /** That can happen: the first call's token is stored after its clearcall, and the next call's takes its place; it never goes out. */
  lemma {:induction false} TokenOverwritten() returns (events: seq<Event>)
    ensures Run(events).token == Token(1, 2, [])
  {
    hide Run;
    events := [];
    assert Run(events) == START by { NoEvents(); }
    var all := [EDialCommand, EDialStep, RClear(true, true), EDialReturns(true, true), EDialStep, EDialReturns(true, true)];
    Next(events, all[0]); events := events + [all[0]];
    Next(events, all[1]); events := events + [all[1]];
    Next(events, all[2]); events := events + [all[2]];
    assert Run(events).callState == Cleared && Run(events).state == Dial && Run(events).engine == InDial;
    Next(events, all[3]); events := events + [all[3]];
    assert Run(events).token == Token(0, 1, []);
    Next(events, all[4]); events := events + [all[4]];
    Next(events, all[5]); events := events + [all[5]];
  }

  lemma NoEvents()
    ensures Run([]) == START
  {
  }

  /**
   In every run, whenever the line's own step begins to release a call: the token, if there is one, goes out at once, in a
   callback, and is forgotten; with none there is no callback, and the call is cleared if the line is on-hook.
  */
  lemma {:induction false} ReleaseSends(events: seq<Event>, e: Event)
    requires !e.RClear? && |Do(Run(events), e).changes| > |Run(events).changes|
    requires var l, l1 := Run(events), Do(Run(events), e); l1.changes[|l.changes|].to == Releasing
    ensures var l, l1 := Run(events), Do(Run(events), e);
      && l1.token.current == NO_TOKEN
      && (l.token.current != NO_TOKEN ==>
            l1.token.sent == l.token.sent + [l.token.current] && l1.engine == InClearCall && l1.lockReleasing == 1 && l1.callState == Releasing)
      && (l.token.current == NO_TOKEN ==>
            l1.token.sent == l.token.sent && l1.engine == Idle && l1.lockReleasing == 0 && l1.callState == Cleared)
  {
    AlwaysSound(events);
    CurrentOk(events);
    hide Run, Chained, TokensOnce;
  }

  // ------------------------------------------------------------- whose request it is

  /** The request is about a call, and not about a new one. */
  predicate AboutCall(e: Event) { e.RAlerting? || e.REstablished? || e.RClear? }

  /** In every run, a request with a token other than the one that is stored leaves the whole line as it is. */
  lemma {:induction false} OtherCall(events: seq<Event>, e: Event)
    requires AboutCall(e) && !e.same && Run(events).token.current != NO_TOKEN
    ensures Do(Run(events), e) == Run(events)
  {
    CurrentOk(events);
    hide Run;
  }

  lemma DoCurrent(l: Line, e: Event)
    requires l.token.current >= NO_TOKEN
    ensures Do(l, e).token.current >= NO_TOKEN
  {
  }

  /** A stored token has a number; none is written as -1. */
  lemma {:induction false} CurrentOk(events: seq<Event>)
    ensures Run(events).token.current >= NO_TOKEN
  {
    hide Do;
    if events != [] {
      CurrentOk(events[..|events| - 1]);
      DoCurrent(Run(events[..|events| - 1]), events[|events| - 1]);
    }
  }

  /**
   In every run, a request with the stored token, or while none is stored, does what it asks for exactly when the line is
   in a state for it. "Alerting": an off-hook line that is dialing, and no other, becomes alerted.
  */
  lemma {:induction false} AlertingIff(events: seq<Event>, same: bool, ring: bool)
    requires same || Run(events).token.current == NO_TOKEN
    ensures var l, l1 := Run(events), Do(Run(events), RAlerting(same, ring));
      && (l.callState == Dialing && l.offHook ==> l1.callState == Alerted)
      && (!(l.callState == Dialing && l.offHook) ==> l1 == l)
      && (l1.state != l.state <==> l.callState == Dialing && l.offHook && l.state == ConnectWait && ring)
      && l1.offHook == l.offHook && l1.token == l.token
  {
    hide Run;
  }

  /** "Established": an off-hook line that is dialing, alerted or answering, and no other, becomes established, and a modem that waited for it goes on. */
  lemma {:induction false} EstablishedIff(events: seq<Event>, same: bool)
    requires same || Run(events).token.current == NO_TOKEN
    ensures var l, l1 := Run(events), Do(Run(events), REstablished(same));
      var ready := l.offHook && (l.callState == Dialing || l.callState == Alerted || l.callState == Answering);
      && (ready ==> l1.callState == Established && l1.state != ConnectWait)
      && (!ready ==> l1 == l)
      && l1.offHook == l.offHook && l1.token == l.token
  {
    hide Run;
  }

  /**
   "Clearcall": a line with a call that is not being released already loses it, and its token; the next number is dialed if
   the request says so while the first is being dialed and waited for; otherwise it is being released while it is off-hook,
   and cleared once it is on-hook.
  */
  lemma {:induction false} ClearIff(events: seq<Event>, same: bool, tryNext: bool)
    requires same || Run(events).token.current == NO_TOKEN
    ensures var l, l1 := Run(events), Do(Run(events), RClear(same, tryNext));
      var next := l.callState == Dialing && l.state == ConnectWait && tryNext;
      if l.callState == Cleared || l.callState == Releasing then l1 == l
      else
        && l1.token.current == NO_TOKEN && l1.token.sent == l.token.sent && l1.offHook == l.offHook
        && l1.lockReleasing == l.lockReleasing
        && (next ==> l1.callState == Cleared && l1.state == Dial)
        && (!next ==> l1.callState == (if l.offHook then Releasing else Cleared) && l1.state == l.state)
  {
    AlwaysSound(events);
    hide Run, Chained, TokensOnce;
  }

  /** And "call": an on-hook line that is cleared, and no other, rings, and stores the token. */
  lemma {:induction false} CallIff(events: seq<Event>, some: bool)
    ensures var l, l1 := Run(events), Do(Run(events), RCall(some));
      if l.callState == Cleared && !l.offHook then
        l1.callState == Called && l1.offHook == l.offHook && (l1.token.current != NO_TOKEN <==> some)
      else l1 == l
  {
    AlwaysSound(events);
    hide Run, Chained;
  }

  // ------------------------------------------------------------- what the engine thread gets done

  lemma NextTwo(events: seq<Event>, e: Event, e1: Event)
    ensures Run(events + [e, e1]) == Do(Do(Run(events), e), e1)
  {
    hide Do;
    assert events + [e, e1] == events + [e] + [e1];
    Next(events, e);
    Next(events + [e], e1);
  }

  /** Dialing, on a line with nothing under way: the endpoint is called if and only if the line is cleared; else the line goes on-hook, with its call as it was. */
  lemma {:induction false} Dials(events: seq<Event>)
    requires Run(events).engine == Idle
    ensures var l, l1 := Run(events), Run(events + [EDialCommand, EDialStep]);
      && l1.token == l.token
      && (l.callState == Cleared ==> l1.callState == Dialing && l1.engine == InDial && l1.state == ConnectWait && l1.offHook)
      && (l.callState != Cleared ==> l1.callState == l.callState && l1.engine == Detaching && !l1.offHook)
  {
    hide Run;
    NextTwo(events, EDialCommand, EDialStep);
  }

  /** The endpoint confirms the call, and its token is stored; or it does not, and the line goes on-hook. */
  lemma {:induction false} DialAnswered(events: seq<Event>, confirm: bool, some: bool)
    requires Run(events).engine == InDial
    ensures var l, l1 := Run(events), Do(Run(events), EDialReturns(confirm, some));
      && l1.callState == l.callState
      && (confirm ==> l1.engine == Idle && l1.offHook && l1.state == l.state && (l1.token.current != NO_TOKEN <==> some))
      && (!confirm ==> l1.engine == Detaching && !l1.offHook && l1.token == l.token)
  {
    AlwaysSound(events);
    hide Run, Chained;
  }

  /** Answering: the endpoint is called if and only if a call rings; else the line goes on-hook. */
  lemma {:induction false} Answers(events: seq<Event>)
    requires Run(events).engine == Idle
    ensures var l, l1 := Run(events), Do(Run(events), EAnswer);
      && l1.token == l.token
      && (l.callState == Called ==> l1.callState == Answering && l1.engine == InAnswer && l1.state == ConnectWait && l1.offHook)
      && (l.callState != Called ==> l1.callState == l.callState && l1.engine == Detaching && !l1.offHook)
  {
    hide Run;
  }

  lemma {:induction false} AnswerAnswered(events: seq<Event>, confirm: bool)
    requires Run(events).engine == InAnswer
    ensures var l, l1 := Run(events), Do(Run(events), EAnswerReturns(confirm));
      && l1.callState == l.callState && l1.token == l.token
      && (confirm ==> l1.engine == Idle && l1.offHook && l1.state == l.state) && (!confirm ==> l1.engine == Detaching && !l1.offHook)
  {
    AlwaysSound(events);
    hide Run, Chained, TokensOnce;
  }

  /** Once its engines are detached, an on-hook line is cleared at once or when its clearcall has returned; the stored token went out in that. */
  lemma {:induction false} HangUp(events: seq<Event>)
    requires Run(events).engine == Detaching
    ensures var l, l1 := Run(events), Run(events + [EDetached, EClearReturns]);
      && l1.callState == Cleared && l1.engine == Idle && !l1.offHook && l1.lockReleasing == 0
      && (l.callState != Cleared && l.token.current != NO_TOKEN ==> l1.token.sent == l.token.sent + [l.token.current] && l1.token.current == NO_TOKEN)
  {
    AlwaysSound(events);
    CurrentOk(events);
    NextTwo(events, EDetached, EClearReturns);
    hide Run, Chained, TokensOnce;
  }

  /** Going on-hook gets that far. */
  lemma {:induction false} GoesOnHook(events: seq<Event>)
    requires Run(events).engine == Idle && Run(events).offHook
    ensures var l, l1 := Run(events), Do(Run(events), EOnHook);
      l1.engine == Detaching && !l1.offHook && l1.callState == l.callState && l1.token == l.token && l1.state == Command
  {
    hide Run;
  }
}
