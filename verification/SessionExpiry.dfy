// A rejected token ends the session it was sent with, once: the rule, and the two
// implementations of it (washnpress-mobile/src/api/client.ts:40-68 as wired by
// App.tsx:272-297, and washnpress-web/lib/api-client.ts:11-94).
module SessionExpiry {
  import opened Prelude

  // ------------------------------------------------------------------- the rule

  // Sessions are numbered as they start; `tokens[i]` is what session i was given, and
  // `ended` are the sessions an expiry has ended, in order.
  datatype Spec = Spec(tokens: seq<string>, live: Option<nat>, ended: seq<nat>)

  datatype SpecEvent = Started(token: string) | Stopped | Rejected(token: string) | Nothing

  predicate WellFormed(s: Spec) {
    && (s.live.Some? ==> s.live.value == |s.tokens| - 1)
    && (forall i | 0 <= i < |s.ended| :: s.ended[i] < |s.tokens|)
    && (s.live.Some? ==> s.live.value !in s.ended)
    && (forall i, j | 0 <= i < j < |s.ended| :: s.ended[i] < s.ended[j])
  }

  function SpecNext(s: Spec, event: SpecEvent): Spec
    requires WellFormed(s)
  {
    match event
    case Started(token) => s.(tokens := s.tokens + [token], live := Some(|s.tokens|))
    case Stopped => s.(live := None)
    case Rejected(token) =>
      if s.live.Some? && s.tokens[s.live.value] == token
      then s.(live := None, ended := s.ended + [s.live.value])
      else s
    case Nothing => s
  }

  // No session is ended twice, and only the live session with the rejected token is.
  lemma SpecNextIsSafe(s: Spec, event: SpecEvent)
    requires WellFormed(s)
    ensures var s' := SpecNext(s, event);
            && WellFormed(s')
            && s.ended <= s'.ended && |s'.ended| <= |s.ended| + 1
            && (s'.ended != s.ended ==>
                  s.live.Some? && s'.ended == s.ended + [s.live.value] && event == Rejected(s.tokens[s.live.value]))
  {
    if event.Rejected? && s.live.Some? {
      var last := s.live.value;
      assert forall i | 0 <= i < |s.ended| :: s.ended[i] in s.ended;
    }
  }

  // ------------------------------------------------------------------ the mobile app

  datatype Mobile = Mobile(registered: bool, notified: bool, activeToken: Option<string>)

  const MOBILE_START := Mobile(false, false, None)

  const OTP_AUTH_PATHS := {"/v1/auth/otp/send", "/v1/auth/otp/verify"}

  function SetHandler(m: Mobile, handler: bool, forToken: Option<string>): Mobile {
    Mobile(handler, if handler then false else m.notified, if handler then forToken else None)
  }

  predicate Presented(token: Option<string>) {
    token.Some? && token.value != ""
  }

  predicate Fires(m: Mobile, path: string, token: Option<string>, status: int) {
    && status == 401 && Presented(token) && path !in OTP_AUTH_PATHS
    && m.registered && !m.notified
    && (m.activeToken.Some? ==> token == m.activeToken)
  }

  class MobileClient {
    var onSessionExpired: bool  // whether a handler is registered
    var sessionExpiryNotified: bool
    var activeToken: Option<string>

    constructor ()
      ensures State() == MOBILE_START
    {
      onSessionExpired, sessionExpiryNotified, activeToken := false, false, None;
    }

    function State(): Mobile
      reads this
    {
      Mobile(onSessionExpired, sessionExpiryNotified, activeToken)
    }

    method SetSessionExpiredHandler(handler: bool, forToken: Option<string>)
      modifies this
      ensures State() == SetHandler(old(State()), handler, forToken)
      ensures onSessionExpired == handler && activeToken == (if handler then forToken else None)
      ensures sessionExpiryNotified <==> !handler && old(sessionExpiryNotified)
    {
      onSessionExpired := handler;
      activeToken := if handler then forToken else None;
      if handler {
        sessionExpiryNotified := false;
      }
    }

    // `fired` is whether the handler was called.
    method NotifyIfAuthenticatedSessionExpired(path: string, token: Option<string>, status: int) returns (fired: bool)
      modifies this
      ensures fired <==>
              && status == 401 && token.Some? && token.value != ""
              && path != "/v1/auth/otp/send" && path != "/v1/auth/otp/verify"
              && old(onSessionExpired) && !old(sessionExpiryNotified)
              && (old(activeToken).Some? ==> token == old(activeToken))
      ensures fired == Fires(old(State()), path, token, status)
      ensures State() == old(State()).(notified := old(State()).notified || fired)
    {
      fired := false;
      if status != 401 || token.None? || token.value == "" || path in OTP_AUTH_PATHS { return; }
      if !onSessionExpired || sessionExpiryNotified { return; }
      if activeToken.Some? && token != activeToken { return; }
      sessionExpiryNotified := true;
      fired := true;
    }
  }

  // The shell registers while there is a token, and detaches first when signing out.
  datatype MobileEvent =
    | TokenSet(token: string)
    | TokenCleared
    | SigningOut
    | MobileReply(path: string, sentToken: Option<string>, status: int)

  function MobileNext(m: Mobile, event: MobileEvent): Mobile {
    match event
    case TokenSet(token) =>
      var detached := SetHandler(m, false, None);
      if token == "" then detached else SetHandler(detached, true, Some(token))
    case TokenCleared => SetHandler(m, false, None)
    case SigningOut => SetHandler(m, false, None)
    case MobileReply(path, token, status) => m.(notified := m.notified || Fires(m, path, token, status))
  }

  function MobileMeans(event: MobileEvent): SpecEvent {
    match event
    case TokenSet(token) => if token == "" then Stopped else Started(token)
    case TokenCleared => Stopped
    case SigningOut => Stopped
    case MobileReply(path, token, status) =>
      if status == 401 && Presented(token) && path !in OTP_AUTH_PATHS then Rejected(token.value) else Nothing
  }

  predicate MobileShows(m: Mobile, s: Spec) {
    && WellFormed(s)
    && (s.live.Some? <==> m.registered && !m.notified)
    && (m.registered ==> m.activeToken.Some?)
    && (s.live.Some? ==> m.activeToken == Some(s.tokens[s.live.value]))
  }

  // A step of the mobile client is a step of the rule, and its handler is called exactly
  // when the rule ends a session.
  lemma MobileStepRefines(m: Mobile, s: Spec, event: MobileEvent)
    requires MobileShows(m, s)
    ensures MobileShows(MobileNext(m, event), SpecNext(s, MobileMeans(event)))
    ensures event.MobileReply? ==>
              (Fires(m, event.path, event.sentToken, event.status) <==> SpecNext(s, MobileMeans(event)).ended != s.ended)
  {
    SpecNextIsSafe(s, MobileMeans(event));
  }

  // -------------------------------------------------------------------- the web app

  datatype Web = Web(stored: Option<string>, sessionEnded: bool, handlerSet: bool)

  const LOGOUT_PATH := "/v1/auth/logout"

  class WebClient {
    var stored: Option<string>  // the token in local storage
    var sessionEnded: bool
    var onSessionExpired: bool

    constructor (stored: Option<string>)
      ensures State() == Web(stored, false, false)
    {
      this.stored := stored;
      sessionEnded, onSessionExpired := false, false;
    }

    function State(): Web
      reads this
    {
      Web(stored, sessionEnded, onSessionExpired)
    }

    method SetSessionExpiredHandler(handler: bool)
      modifies this
      ensures State() == old(State()).(handlerSet := handler)
    {
      onSessionExpired := handler;
    }

    // An absent or empty token removes the stored one. `refused` is whether local
    // storage throws, which is ignored.
    method SetToken(t: Option<string>, refused: bool)
      modifies this
      ensures State() == StoreToken(old(State()), t, refused)
    {
      if !refused {
        stored := if Presented(t) then t else None;
      }
      if Presented(t) {
        sessionEnded := false;
      }
    }

    method EndSession(refused: bool) returns (fired: bool)
      modifies this
      ensures State() == if old(sessionEnded) then old(State()) else Ended(old(State()), refused)
      ensures fired == (!old(sessionEnded) && onSessionExpired)
    {
      if sessionEnded { return false; }
      sessionEnded := true;
      SetToken(None, refused);
      fired := onSessionExpired;
    }

    // The tail of a request that came back.
    method OnReply(path: string, sentToken: Option<string>, status: int, refused: bool) returns (fired: bool)
      modifies this
      ensures State() == WebNext(old(State()), WebReply(path, sentToken, status, refused))
      ensures !old(sessionEnded) && sessionEnded <==>
              && status == 401 && sentToken.Some? && sentToken.value != "" && path != "/v1/auth/logout"
              && old(stored) == sentToken && !old(sessionEnded)
      ensures fired == (!old(sessionEnded) && sessionEnded && onSessionExpired)
    {
      fired := false;
      if status == 401 && Presented(sentToken) && stored == sentToken && path != LOGOUT_PATH {
        fired := EndSession(refused);
      }
    }
  }

  function StoreToken(w: Web, t: Option<string>, refused: bool): Web {
    w.(stored := if refused then w.stored else if Presented(t) then t else None,
       sessionEnded := if Presented(t) then false else w.sessionEnded)
  }

  function Ended(w: Web, refused: bool): Web {
    w.(sessionEnded := true, stored := if refused then w.stored else None)
  }

  predicate EndsSession(w: Web, path: string, sentToken: Option<string>, status: int) {
    && status == 401 && Presented(sentToken) && path != LOGOUT_PATH
    && w.stored == sentToken && !w.sessionEnded
  }

  datatype WebEvent =
    | WebSignIn(token: string, refused: bool)
    | WebSignOut(refused: bool)
    | HandlerChange(handler: bool)
    | WebReply(path: string, sentToken: Option<string>, status: int, refused: bool)

  function WebNext(w: Web, event: WebEvent): Web {
    match event
    case WebSignIn(token, refused) => StoreToken(w, Some(token), refused)
    case WebSignOut(refused) => StoreToken(w, None, refused)
    case HandlerChange(handler) => w.(handlerSet := handler)
    case WebReply(path, sentToken, status, refused) =>
      if EndsSession(w, path, sentToken, status) then Ended(w, refused) else w
  }

  // A sign-out or sign-in the storage refuses leaves the stored token where it was; the
  // refused sign-in takes it up again if its session had ended.
  function WebMeans(w: Web, event: WebEvent): SpecEvent {
    match event
    case WebSignIn(token, refused) =>
      if !refused then (if token == "" then Stopped else Started(token))
      else if token != "" && w.sessionEnded && w.stored.Some? then Started(w.stored.value)
      else Nothing
    case WebSignOut(refused) => if refused then Nothing else Stopped
    case HandlerChange(_) => Nothing
    case WebReply(path, sentToken, status, _) =>
      if status == 401 && Presented(sentToken) && path != LOGOUT_PATH then Rejected(sentToken.value) else Nothing
  }

  predicate WebShows(w: Web, s: Spec) {
    && WellFormed(s)
    && (s.live.Some? <==> w.stored.Some? && !w.sessionEnded)
    && (s.live.Some? ==> w.stored == Some(s.tokens[s.live.value]))
  }

  lemma WebStepRefines(w: Web, s: Spec, event: WebEvent)
    requires WebShows(w, s)
    ensures WebShows(WebNext(w, event), SpecNext(s, WebMeans(w, event)))
    ensures event.WebReply? ==>
              (EndsSession(w, event.path, event.sentToken, event.status) <==>
               SpecNext(s, WebMeans(w, event)).ended != s.ended)
  {
    SpecNextIsSafe(s, WebMeans(w, event));
  }

  // A token whose session ended, but which storage would not give up, can be rejected a
  // second time after exactly one kind of event: a sign-in with that same token, or with
  // any other that storage would not take.
  lemma EndedTokenRevives(w: Web, event: WebEvent)
    requires w.sessionEnded && w.stored.Some?
    ensures !WebNext(w, event).sessionEnded && WebNext(w, event).stored == w.stored <==>
            event.WebSignIn? && event.token != "" && (event.refused || w.stored == Some(event.token))
  {
  }

  // --------------------------------------------------------------------- whole runs

  const NO_SESSION := Spec([], None, [])

  function SpecRun(start: Spec, events: seq<SpecEvent>): Spec
    requires WellFormed(start)
    ensures WellFormed(SpecRun(start, events))
  {
    if events == [] then start
    else
      var s := SpecRun(start, Init(events));
      SpecNextIsSafe(s, Last(events));
      SpecNext(s, Last(events))
  }

  function MobileRun(events: seq<MobileEvent>): Mobile {
    if events == [] then MOBILE_START else MobileNext(MobileRun(Init(events)), Last(events))
  }

  function MobileFires(events: seq<MobileEvent>): nat {
    if events == [] then 0
    else
      var last := Last(events);
      MobileFires(Init(events)) +
      if last.MobileReply? && Fires(MobileRun(Init(events)), last.path, last.sentToken, last.status) then 1 else 0
  }

  function MeantByMobile(events: seq<MobileEvent>): seq<SpecEvent> {
    if events == [] then [] else MeantByMobile(Init(events)) + [MobileMeans(Last(events))]
  }

  // Over every interleaving of sign-ins, sign-outs and late replies, the mobile handler
  // is called once for each session the rule ends: never twice for one session.
  lemma {:induction false} MobileRefinesTheRule(events: seq<MobileEvent>)
    ensures MobileShows(MobileRun(events), SpecRun(NO_SESSION, MeantByMobile(events)))
    ensures MobileFires(events) == |SpecRun(NO_SESSION, MeantByMobile(events)).ended|
  {
    if events != [] {
      MobileRefinesTheRule(Init(events));
      var m, s := MobileRun(Init(events)), SpecRun(NO_SESSION, MeantByMobile(Init(events)));
      assert Init(MeantByMobile(events)) == MeantByMobile(Init(events));
      MobileStepRefines(m, s, Last(events));
      SpecNextIsSafe(s, MobileMeans(Last(events)));
    }
  }

  function WebStart(stored: Option<string>): Spec {
    if stored.Some? then Spec([stored.value], Some(0), []) else NO_SESSION
  }

  function WebRun(stored: Option<string>, events: seq<WebEvent>): Web {
    if events == [] then Web(stored, false, false) else WebNext(WebRun(stored, Init(events)), Last(events))
  }

  function WebEnds(stored: Option<string>, events: seq<WebEvent>): nat {
    if events == [] then 0
    else
      var last := Last(events);
      WebEnds(stored, Init(events)) +
      if last.WebReply? && EndsSession(WebRun(stored, Init(events)), last.path, last.sentToken, last.status) then 1 else 0
  }

  function MeantByWeb(stored: Option<string>, events: seq<WebEvent>): seq<SpecEvent> {
    if events == [] then []
    else MeantByWeb(stored, Init(events)) + [WebMeans(WebRun(stored, Init(events)), Last(events))]
  }

  // The same for the web, from whatever token the page finds in storage, and even when
  // storage refuses to give a token up or to take one.
  lemma {:induction false} WebRefinesTheRule(stored: Option<string>, events: seq<WebEvent>)
    ensures WebShows(WebRun(stored, events), SpecRun(WebStart(stored), MeantByWeb(stored, events)))
    ensures WebEnds(stored, events) == |SpecRun(WebStart(stored), MeantByWeb(stored, events)).ended|
  {
    if events != [] {
      WebRefinesTheRule(stored, Init(events));
      var w, s := WebRun(stored, Init(events)), SpecRun(WebStart(stored), MeantByWeb(stored, Init(events)));
      assert Init(MeantByWeb(stored, events)) == MeantByWeb(stored, Init(events));
      WebStepRefines(w, s, Last(events));
      SpecNextIsSafe(s, WebMeans(w, Last(events)));
    }
  }

  predicate StorageObeys(events: seq<WebEvent>) {
    forall e | e in events :: (e.WebSignOut? || e.WebReply?) ==> !e.refused
  }

  // The web latch is there for storage that refuses: while storage obeys, an ended
  // session has no token left to be rejected with.
  lemma {:induction false} WebLatchIsForRefusingStorage(stored: Option<string>, events: seq<WebEvent>)
    requires StorageObeys(events)
    ensures WebRun(stored, events).sessionEnded ==> WebRun(stored, events).stored.None?
  {
    if events != [] {
      assert events == Init(events) + [Last(events)];
      WebLatchIsForRefusingStorage(stored, Init(events));
    }
  }
}
