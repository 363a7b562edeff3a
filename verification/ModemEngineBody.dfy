/** The call side of the modem engine as the object it is. Each method is what runs between two releases of the modem's lock. */
module ModemEngineBodies {
  import opened CallControl

  class ModemEngineBody {
    var callState: CallState
    var offHook: bool
    var lockReleasingState: nat
    var state: State
    var callToken: string
    var engine: Engine

    ghost var token: Token
    ghost var changes: seq<Change>

    ghost predicate Valid()
      reads this
    {
      token.current < 0 <==> callToken == ""
    }

    /** The line as the value the specification works on. */
    ghost function View(): Line
      reads this
    {
      Line(callState, offHook, lockReleasingState, state, token, engine, changes)
    }

    constructor ()
      ensures Valid() && View() == START
    {
      callState, offHook, lockReleasingState, state, callToken, engine := Cleared, false, 0, Command, "", Idle;
      token, changes := Token(NO_TOKEN, 0, []), [];
    }

    method SetCallState(newState: CallState, ghost cause: Cause)
      modifies this`callState, this`changes
      ensures View() == CallControl.SetCallState(old(View()), newState, cause)
    {
      if callState != newState {
        changes := changes + [Change(callState, newState, cause, offHook)];
        callState := newState;
      }
    }

    method StoreToken(newToken: string)
      modifies this`callToken, this`token
      ensures Valid() && View() == old(View()).(token := Store(old(token), newToken != ""))
    {
      callToken := newToken;
      token := Store(token, newToken != "");
    }

    /** `_ClearCall`: the token to be cleared by a callback, if there is one; then the release goes on in `ClearCallReturns`. */
    method ClearCall() returns (request: string)
      requires Valid()
      modifies this
      ensures Valid() && View() == EngineClear(old(View()))
      ensures request == if old(callState) == Cleared then "" else old(callToken)
    {
      engine := Idle;
      if callState == Cleared {
        return "";
      }
      lockReleasingState := lockReleasingState + 1;
      request := callToken;
      if callToken != "" {
        token := SendToken(token);
        callToken := "";
        SetCallState(Releasing, OnRelease);
        engine := InClearCall;
        return;
      }
      SetCallState(Releasing, OnRelease);
      ClearCallReturns();
    }

    method ClearCallReturns()
      requires Valid() && lockReleasingState > 0
      modifies this
      ensures Valid() && View() == EndRelease(old(View())).(engine := Idle) && callToken == old(callToken)
    {
      lockReleasingState := lockReleasingState - 1;
      if lockReleasingState == 0 && !offHook {
        SetCallState(Cleared, OnCleared);
      }
      engine := Idle;
    }

    /** `OnHook`: an off-hook line has its engines detached first, and then goes on to `ClearCall`. */
    method OnHook() returns (request: string)
      requires Valid()
      modifies this
      ensures Valid() && View() == CallControl.OnHook(old(View()))
    {
      if offHook {
        offHook := false;
        state := Command;
        engine := Detaching;
        return "";
      }
      request := ClearCall();
    }

    /** The dial step: whether the endpoint is to be called. */
    method DialStep() returns (dial: bool)
      requires Valid()
      modifies this
      ensures Valid() && View() == CallControl.DialStep(old(View())) && dial == (old(callState) == Cleared)
    {
      if callState == Cleared {
        SetCallState(Dialing, OnDial);
        state := ConnectWait;
        engine := InDial;
        return true;
      }
      var _ := OnHook();
      return false;
    }

    method DialReturns(confirm: bool, newToken: string)
      requires Valid()
      modifies this
      ensures Valid() && View() == CallControl.DialReturns(old(View()), confirm, newToken != "")
    {
      if confirm {
        StoreToken(newToken);
        engine := Idle;
      } else {
        var _ := OnHook();
      }
    }

    /** `Answer`: whether the endpoint is to be called. */
    method Answer() returns (answer: bool)
      requires Valid()
      modifies this
      ensures Valid() && View() == CallControl.Answer(old(View())) && answer == (old(callState) == Called)
    {
      offHook := true;
      if callState == Called {
        SetCallState(Answering, OnAnswer);
        state := ConnectWait;
        engine := InAnswer;
        return true;
      }
      var _ := OnHook();
      return false;
    }

    method AnswerReturns(confirm: bool)
      requires Valid()
      modifies this
      ensures Valid() && View() == CallControl.AnswerReturns(old(View()), confirm)
    {
      if confirm {
        engine := Idle;
      } else {
        var _ := OnHook();
      }
    }

    /** Request "call". */
    method Call(newToken: string) returns (confirm: bool)
      requires Valid()
      modifies this
      ensures Valid() && View() == CallRequest(old(View()), newToken != "")
      ensures confirm == (old(callState) == Cleared && !old(offHook))
    {
      if callState != Cleared || offHook {
        return false;
      }
      SetCallState(Called, OnCall);
      StoreToken(newToken);
      return true;
    }

    predicate TokenMatches(requestToken: string)
      reads this
    {
      callToken == "" || callToken == requestToken
    }

    /** Request "alerting"; it is confirmed to a modem that stops waiting, to play the ringing. */
    method Alerting(requestToken: string, ring: bool) returns (confirm: bool)
      requires Valid()
      modifies this
      ensures Valid() && View() == AlertingRequest(old(View()), old(callToken) == requestToken, ring)
      ensures old(callToken) != "" && old(callToken) != requestToken ==> View() == old(View()) && !confirm
      ensures confirm <==> old(state) == ConnectWait && state == Busy
    {
      confirm := false;
      if callState == Dialing && offHook && TokenMatches(requestToken) {
        SetCallState(Alerted, OnAlerting);
        if state == ConnectWait && ring {
          state := Busy;
          confirm := true;
        }
      }
    }

    /** Request "established"; it is confirmed to a modem that waits for it. */
    method EstablishedCall(requestToken: string) returns (confirm: bool)
      requires Valid()
      modifies this
      ensures Valid() && View() == EstablishedRequest(old(View()), old(callToken) == requestToken)
      ensures old(callToken) != "" && old(callToken) != requestToken ==> View() == old(View()) && !confirm
      ensures confirm <==> old(state) == ConnectWait && state == Busy
    {
      if callState != Dialing && callState != Alerted && callState != Answering {
        return false;
      }
      confirm := false;
      if offHook && TokenMatches(requestToken) {
        SetCallState(Established, OnEstablished);
        if state == ConnectWait {
          state := Busy;
          confirm := true;
        }
      }
    }

    /** Request "clearcall"; it is confirmed if and only if there was a call of this token, and then there is none. */
    method ClearCallRequest(requestToken: string, tryNextDial: bool) returns (confirm: bool)
      requires Valid()
      modifies this
      ensures Valid() && View() == ClearRequest(old(View()), old(callToken) == requestToken, tryNextDial)
      ensures old(callToken) != "" && old(callToken) != requestToken ==> View() == old(View()) && !confirm
      ensures confirm ==> old(callState) != Cleared && old(callState) != Releasing && (callState == Cleared || callState == Releasing)
      ensures !confirm ==> View() == old(View())
    {
      if callState == Cleared || callState == Releasing || !TokenMatches(requestToken) {
        return false;
      }
      callToken := "";
      token := Forget(token);
      if callState == Dialing && state == ConnectWait && tryNextDial {
        SetCallState(Cleared, OnTryNext);
        state := Dial;
      } else {
        var busy := engine;
        var _ := ClearCall();
        engine := busy;
      }
      return true;
    }
  }
}
