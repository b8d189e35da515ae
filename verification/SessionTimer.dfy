/**
 * Session timers (engine/timers.go; RFC 4028): who refreshes, how often, and when the other end gives up.
 * Durations and times are in nanoseconds, as in the source.
 */
module SessionTimer {
  import opened Options
  import opened Text

  const SECOND: int := 1_000_000_000
  const MAX64: int := 0x7FFF_FFFF_FFFF_FFFF

  /** Two's complement of 64 bits. */
  function Wrap64(x: int): int {
    (x + MAX64 + 1) % (2 * (MAX64 + 1)) - MAX64 - 1
  }

  /** Division that truncates towards zero. */
  function Quotient(a: int, b: int): int
    requires b > 0
  {
    if a >= 0 then a / b else -((-a) / b)
  }

  function Min(a: int, b: int): int { if a <= b then a else b }

  /* ---- Decimal numbers ---- */

  function Digits(n: nat): string {
    (if n < 10 then "" else Digits(n / 10)) + [(n % 10 + '0' as int) as char]
  }

  function Decimal(n: int): string {
    if n < 0 then ['-'] + Digits(-n) else Digits(n)
  }

  predicate IsDigit(c: char) { '0' <= c <= '9' }

  predicate AllDigits(s: string) {
    forall i :: 0 <= i < |s| ==> IsDigit(s[i])
  }

  function Value(s: string): nat
    requires AllDigits(s)
  {
    if s == "" then 0 else 10 * Value(s[..|s| - 1]) + (s[|s| - 1] as int - '0' as int)
  }

  /** An optional sign and at least one digit, within 64 bits. */
  function Atoi(s: string): Option<int> {
    var body := if s != "" && (s[0] == '-' || s[0] == '+') then s[1..] else s;
    if body == "" || !AllDigits(body) then None
    else
      var v: int := Value(body);
      var n := if s[0] == '-' then -v else v;
      if -MAX64 - 1 <= n <= MAX64 then Some(n) else None
  }

  lemma {:induction false} DigitsHaveValue(n: nat)
    ensures AllDigits(Digits(n)) && Digits(n) != "" && Value(Digits(n)) == n
  {
    if n >= 10 {
      DigitsHaveValue(n / 10);
      var s := Digits(n);
      assert s[..|s| - 1] == Digits(n / 10);
    }
  }

  lemma AtoiOfDigits(d: string)
    requires d != "" && AllDigits(d)
    ensures Atoi(d) == if Value(d) <= MAX64 then Some(Value(d)) else None
    ensures Atoi(['-'] + d) == if Value(d) <= MAX64 + 1 then Some(-(Value(d) as int)) else None
  {
    hide Value;
    assert IsDigit(d[0]);
    assert (['-'] + d)[1..] == d;
  }

  lemma AtoiOfDecimal(n: int)
    ensures Atoi(Decimal(n)) == if -MAX64 - 1 <= n <= MAX64 then Some(n) else None
    ensures TrimSpace(Decimal(n)) == Decimal(n) && Free(Decimal(n), ';')
  {
    hide Digits, Value, Atoi, TrimSpace, Free;
    var m: nat := if n < 0 then -n else n;
    var d := Digits(m);
    DigitsHaveValue(m);
    AtoiOfDigits(d);
    if n < 0 {
      assert (['-'] + d)[1..] == d;
      DigitsAreFree(['-'] + d);
    } else {
      DigitsAreFree(d);
    }
  }

  lemma DigitsAreFree(s: string)
    requires s != "" && AllDigits(s[1..]) && (IsDigit(s[0]) || s[0] == '-') && IsDigit(s[|s| - 1])
    ensures TrimSpace(s) == s && Free(s, ';')
  {
    TrimNothing(s);
    forall i | 0 <= i < |s|
      ensures s[i] != ';'
    {
      assert i > 0 ==> IsDigit(s[1..][i - 1]);
    }
  }

  /* ---- The header ---- */

  function Refresher(params: seq<string>): string {
    if params == [] then ""
    else
      var (k, val, found) := Cut(TrimSpace(params[|params| - 1]), '=');
      if found && Lower(k) == "refresher" then Lower(val) else Refresher(params[..|params| - 1])
  }

  /** The interval, which overflows above 292 years, and the refresher, "" if there is none. */
  function ParseSessionExpires(header: Option<string>): Option<(int, string)> {
    if header.None? then None
    else
      var (v, params, _) := Cut(header.value, ';');
      match Atoi(TrimSpace(v))
      case None => None
      case Some(secs) => if secs <= 0 then None else Some((Wrap64(secs * SECOND), Refresher(Split(params, ';'))))
  }

  /** The parameter loop of the source. */
  method ReadRefresher(params: seq<string>) returns (refresher: string)
    ensures refresher == Refresher(params)
  {
    refresher := "";
    for i := 0 to |params|
      invariant refresher == Refresher(params[..i])
    {
      assert params[..i + 1][..i] == params[..i];
      var (k, val, found) := Cut(TrimSpace(params[i]), '=');
      if found && Lower(k) == "refresher" {
        refresher := Lower(val);
      }
    }
    assert params[..|params|] == params;
  }

  function TimerHeader(expires: int, role: string): string {
    Decimal(Quotient(expires, SECOND)) + [';'] + ("refresher" + ['='] + role)
  }

  /** What can be the value of a refresher parameter once it is in lower case. */
  ghost predicate Token(r: string) {
    Free(r, ';') && Lower(r) == r && (r != "" ==> !IsSpace(r[|r| - 1]))
  }

  lemma LowerIsToken(t: string)
    requires Free(t, ';') && (t != "" ==> !IsSpace(t[|t| - 1]))
    ensures Token(Lower(Cut(t, '=').1))
  {
    hide Cut, Lower, Token;
    CutIsClean(t);
    LowerKeepsToken(Cut(t, '=').1);
  }

  lemma LowerKeepsToken(v: string)
    requires Free(v, ';') && (v != "" ==> !IsSpace(v[|v| - 1]))
    ensures Token(Lower(v))
  {
    assert Lower(Lower(v)) == Lower(v);
  }

  lemma {:induction false} RefresherIsToken(params: seq<string>)
    requires forall i :: 0 <= i < |params| ==> Free(params[i], ';')
    ensures Token(Refresher(params))
  {
    hide Cut, Free, Token, TrimSpace, Lower;
    if params == [] {
      EmptyIsToken();
    } else {
      var last := params[|params| - 1];
      RefresherIsToken(params[..|params| - 1]);
      TrimIsClean(last);
      LowerIsToken(TrimSpace(last));
    }
  }

  lemma EmptyIsToken()
    ensures Token("")
  {}

  lemma OneRefresher(r: string)
    requires Token(r)
    ensures Refresher(Split("refresher" + ['='] + r, ';')) == r
  {
    hide Cut, TrimSpace, Split, Lower;
    var p := "refresher" + ['='] + r;
    RefresherParam(r);
    hide Token, Free, IsSpace;
    SplitNone(p, ';');
    TrimNothing(p);
    CutAt("refresher", '=', r);
    assert [p][..0] == [] && [p][0] == p;
  }

  lemma RefresherParam(r: string)
    requires Token(r)
    ensures var p := "refresher" + ['='] + r; Free(p, ';') && !IsSpace(p[0]) && !IsSpace(p[|p| - 1])
    ensures Free("refresher", '=') && Lower("refresher") == "refresher" && Lower(r) == r
  {
    var p := "refresher" + ['='] + r;
    assert p[|p| - 1] == if r == "" then '=' else r[|r| - 1];
  }

  lemma KnownTokens()
    ensures Token("uac") && Token("uas")
  {}

  /** A printed header is read back with the interval cut to whole seconds; under a second it is no header at all. */
  lemma HeaderRoundTrip(expires: int, role: string)
    requires -MAX64 - 1 <= expires <= MAX64 && Token(role)
    ensures ParseSessionExpires(Some(TimerHeader(expires, role)))
            == if expires >= SECOND then Some((expires / SECOND * SECOND, role)) else None
  {
    WholeSeconds(expires);
    hide *;
    HeaderRead(Quotient(expires, SECOND), "refresher" + ['='] + role);
    OneRefresher(role);
    assert TimerHeader(expires, role)
           == Decimal(Quotient(expires, SECOND)) + [';'] + ("refresher" + ['='] + role) by { Printed(expires, role); }
  }

  lemma Printed(expires: int, role: string)
    ensures TimerHeader(expires, role) == Decimal(Quotient(expires, SECOND)) + [';'] + ("refresher" + ['='] + role)
  {}

  lemma WholeSeconds(expires: int)
    requires -MAX64 - 1 <= expires <= MAX64
    ensures var secs := Quotient(expires, SECOND);
            if expires >= SECOND then 0 < secs <= MAX64 && Wrap64(secs * SECOND) == expires / SECOND * SECOND
            else secs <= 0
  {}

  /**
   * Any number with any parameters: it names an interval exactly if it is positive and fits into 64 bits, and the
   * product with a second wraps around.
   */
  lemma HeaderRead(n: int, params: string)
    ensures ParseSessionExpires(Some(Decimal(n) + [';'] + params))
            == if 0 < n <= MAX64 then Some((Wrap64(n * SECOND), Refresher(Split(params, ';')))) else None
  {
    hide Cut, TrimSpace, Decimal, Refresher, Split, Atoi, Wrap64;
    AtoiOfDecimal(n);
    CutAt(Decimal(n), ';', params);
  }

  /** A parameter that names the refresher, in any case and with any spaces around it. */
  predicate NamesRefresher(p: string, val: string) {
    var (k, v, found) := Cut(TrimSpace(p), '=');
    found && Lower(k) == "refresher" && v == val
  }

  /** The last refresher parameter counts, in lower case; parameters of other names do not. */
  lemma {:induction false} LastRefresherCounts(before: seq<string>, p: string, val: string, after: seq<string>)
    requires NamesRefresher(p, val) && forall i, v :: 0 <= i < |after| ==> !NamesRefresher(after[i], v)
    ensures Refresher(before + [p] + after) == Lower(val)
  {
    hide Refresher, NamesRefresher, Lower;
    if after == [] {
      assert before + [p] + after == before + [p];
      LastRefresher(before, p, val);
    } else {
      var n := |after| - 1;
      assert before + [p] + after == (before + [p] + after[..n]) + [after[n]];
      LastRefresher(before + [p] + after[..n], after[n], val);
      LastRefresherCounts(before, p, val, after[..n]);
    }
  }

  lemma LastRefresher(params: seq<string>, p: string, val: string)
    ensures NamesRefresher(p, val) ==> Refresher(params + [p]) == Lower(val)
    ensures (forall v :: !NamesRefresher(p, v)) ==> Refresher(params + [p]) == Refresher(params)
  {
    hide Cut, TrimSpace, Lower;
    assert (params + [p])[..|params|] == params;
    assert NamesRefresher(p, Cut(TrimSpace(p), '=').1) || Refresher(params + [p]) == Refresher(params);
  }

  lemma {:induction false} NoRefresherNamed(params: seq<string>)
    requires forall i, v :: 0 <= i < |params| ==> !NamesRefresher(params[i], v)
    ensures Refresher(params) == ""
  {
    hide Cut, TrimSpace, Lower;
    if params != [] {
      var last := params[|params| - 1];
      assert !NamesRefresher(last, Cut(TrimSpace(last), '=').1);
      NoRefresherNamed(params[..|params| - 1]);
    }
  }

  /** How such a parameter may be written. */
  lemma AnyCaseRefresher(before: string, key: string, val: string, after: string)
    requires Blank(before) && Blank(after) && Lower(key) == "refresher" && Free(key, '=')
    requires val != "" && !IsSpace(val[|val| - 1])
    ensures NamesRefresher(before + (key + ['='] + val) + after, val)
  {
    var p := key + ['='] + val;
    KeyHasNoSpace(key);
    assert p[0] == key[0] && p[|p| - 1] == val[|val| - 1];
    hide Cut, TrimSpace, Lower, Free, IsSpace, Blank;
    SpacesAround(before, p, after);
    CutAt(key, '=', val);
  }

  lemma KeyHasNoSpace(key: string)
    requires Lower(key) == "refresher"
    ensures key != "" && !IsSpace(key[0])
  {
    assert Lower(key)[0] == 'r';
  }

  /* ---- The two ends of a call ---- */

  datatype Session = Session(expires: int, refresher: bool)

  datatype Alarm = Refresh(at: int) | Expire(at: int)

  function Deadline(expires: int): int {
    expires - Min(32 * SECOND, Quotient(expires, 3))
  }

  function AlarmOf(s: Session, now: int): Alarm {
    if s.refresher then Refresh(now + Quotient(s.expires, 2)) else Expire(now + Deadline(s.expires))
  }

  function Started(expires: int, weRefresh: bool): Option<Session> {
    if expires <= 0 then None else Some(Session(expires, weRefresh))
  }

  /** sessionForAnswer: what the answering end will arm, and the header of its 2xx. */
  function ForAnswer(invite: Option<string>, config: int, supported: bool): Option<(int, string)> {
    match ParseSessionExpires(invite)
    case Some((expires, refresher)) => Some((expires, if refresher == "" then "uac" else refresher))
    case None => if config <= 0 || !supported then None else Some((config, "uac"))
  }

  function UasSession(invite: Option<string>, config: int, supported: bool): Option<Session> {
    match ForAnswer(invite, config, supported)
    case None => None
    case Some((expires, role)) => Started(expires, role == "uas")
  }

  function AnswerHeader(invite: Option<string>, config: int, supported: bool): Option<string> {
    match ForAnswer(invite, config, supported)
    case None => None
    case Some((expires, role)) => Some(TimerHeader(expires, role))
  }

  /** sessionFromAnswer. */
  function UacSession(answer: Option<string>): Option<Session> {
    match ParseSessionExpires(answer)
    case None => None
    case Some((expires, refresher)) => Started(expires, refresher != "uas")
  }

  /** The Session-Expires header of our own re-INVITE. */
  function RefreshHeader(s: Session): string {
    TimerHeader(s.expires, if s.refresher then "uac" else "uas")
  }

  /** addSessionHeaders: the header of the response to a re-INVITE. */
  function Echo(request: Option<string>): Option<string> {
    match ParseSessionExpires(request)
    case None => None
    case Some((expires, refresher)) => Some(TimerHeader(expires, if refresher == "" then "uac" else refresher))
  }

  /** The headers of a 2xx: the Session-Expires value and whether timer is required. */
  datatype Headers = Headers(expires: string, require: bool)

  /**
   * The session-timer fields of a call; alarm is the timer that is running, later what the answering end will
   * start once its 2xx is sent.
   */
  class Call {
    var sess: Option<Session>
    var alarm: Option<Alarm>
    var later: Option<(int, bool)>
    var ended: bool

    ghost predicate Valid()
      reads this
    {
      alarm.Some? ==> sess.Some? && (sess.value.refresher <==> alarm.value.Refresh?)
    }

    constructor ()
      ensures Valid() && sess == None && alarm == None && later == None && !ended
    {
      sess, alarm, later, ended := None, None, None, false;
    }

    method SessionRefreshed(now: int)
      requires Valid()
      modifies this`alarm
      ensures Valid()
      ensures alarm == if sess.None? || ended then old(alarm) else Some(AlarmOf(sess.value, now))
    {
      if sess.None? || ended {
        return;
      }
      if sess.value.refresher {
        alarm := Some(Refresh(now + Quotient(sess.value.expires, 2)));
      } else {
        alarm := Some(Expire(now + (sess.value.expires - Min(32 * SECOND, Quotient(sess.value.expires, 3)))));
      }
    }

    method StartSession(now: int, expires: int, weRefresh: bool)
      requires Valid() && sess.None?
      modifies this`sess, this`alarm
      ensures Valid() && sess == Started(expires, weRefresh)
      ensures alarm == if sess.None? || ended then old(alarm) else Some(AlarmOf(sess.value, now))
    {
      if expires <= 0 {
        return;
      }
      sess := Some(Session(expires, weRefresh));
      SessionRefreshed(now);
    }

    method SessionFromAnswer(now: int, answer: Option<string>)
      requires Valid() && sess.None?
      modifies this`sess, this`alarm
      ensures Valid() && sess == UacSession(answer)
      ensures alarm == if sess.None? || ended then old(alarm) else Some(AlarmOf(sess.value, now))
    {
      var p := ParseSessionExpires(answer);
      if p.None? {
        return;
      }
      StartSession(now, p.value.0, p.value.1 != "uas");
    }

    /** Nothing is armed yet: that is left to SessionStarts. */
    method SessionForAnswer(invite: Option<string>, config: int, supported: bool) returns (headers: Option<Headers>)
      modifies this`later
      ensures match ForAnswer(invite, config, supported)
              case None => later == old(later) && headers == None
              case Some((expires, role)) =>
                later == Some((expires, role == "uas"))
                && headers == Some(Headers(TimerHeader(expires, role), supported))
    {
      var p := ParseSessionExpires(invite);
      var expires, refresher;
      if p.None? {
        if config <= 0 || !supported {
          return None;
        }
        expires, refresher := config, "uac";
      } else {
        expires, refresher := p.value.0, p.value.1;
      }
      if refresher == "" {
        refresher := "uac";
      }
      later := Some((expires, refresher == "uas"));
      return Some(Headers(TimerHeader(expires, refresher), supported));
    }

    /** The answering end once its 2xx is sent and the call is connected. */
    method SessionStarts(now: int)
      requires Valid() && sess.None?
      modifies this`sess, this`alarm
      ensures Valid() && sess == if later.None? then None else Started(later.value.0, later.value.1)
      ensures alarm == if sess.None? || ended then old(alarm) else Some(AlarmOf(sess.value, now))
    {
      if later.Some? {
        StartSession(now, later.value.0, later.value.1);
      }
    }

    /** addSessionHeaders: what the response to a re-INVITE repeats. */
    method AddSessionHeaders(request: Option<string>) returns (headers: Option<Headers>)
      ensures match Echo(request)
              case None => headers == None
              case Some(value) => headers == Some(Headers(value, true))
    {
      var p := ParseSessionExpires(request);
      if p.None? {
        return None;
      }
      var refresher := p.value.1;
      if refresher == "" {
        refresher := "uac";
      }
      return Some(Headers(TimerHeader(p.value.0, refresher), true));
    }
  }

  lemma AnswerIsToken(invite: Option<string>, config: int, supported: bool)
    requires config <= MAX64
    ensures ForAnswer(invite, config, supported).Some? ==>
              var (expires, role) := ForAnswer(invite, config, supported).value;
              -MAX64 - 1 <= expires <= MAX64 && Token(role)
  {
    hide Token, Refresher, Atoi, TrimSpace, Cut;
    KnownTokens();
    if ParseSessionExpires(invite).Some? {
      var params := Split(Cut(invite.value, ';').1, ';');
      RefresherIsToken(params);
    }
  }

  /**
   * After any INVITE, with any refresher token or none, the two ends never both refresh and never both wait. They
   * arm the same interval, or neither arms one, exactly when the answering end's interval is in whole seconds or
   * not positive.
   */
  lemma EndsAgree(invite: Option<string>, config: int, supported: bool)
    requires config <= MAX64
    ensures var uas, uac := UasSession(invite, config, supported), UacSession(AnswerHeader(invite, config, supported));
            && (uac.Some? ==> uas.Some? && uac.value.refresher == !uas.value.refresher
                              && uac.value.expires == uas.value.expires / SECOND * SECOND)
            && ((uas.Some? <==> uac.Some?) && (uas.Some? ==> uas.value.expires == uac.value.expires)
                <==> (uas.Some? ==> uas.value.expires % SECOND == 0))
  {
    hide ParseSessionExpires, TimerHeader, Token;
    AnswerIsToken(invite, config, supported);
    if ForAnswer(invite, config, supported).Some? {
      var (expires, role) := ForAnswer(invite, config, supported).value;
      HeaderRoundTrip(expires, role);
    } else {
      NoHeader();
    }
  }

  lemma NoHeader()
    ensures ParseSessionExpires(None) == None
  {}

  /** An interval that the INVITE names is in whole seconds, unless it overflows; a configured one need not be. */
  lemma InviteNamesInterval(secs: nat, role: string, config: int, supported: bool)
    requires 0 < secs <= 9_223_372_036 && Token(role)
    ensures var invite := Some(TimerHeader(secs * SECOND, role));
            UasSession(invite, config, supported) == Some(Session(secs * SECOND, role == "uas"))
            && UacSession(AnswerHeader(invite, config, supported)) == Some(Session(secs * SECOND, role != "uas"))
  {
    hide ParseSessionExpires, TimerHeader, Token;
    KnownTokens();
    HeaderRoundTrip(secs * SECOND, role);
    HeaderRoundTrip(secs * SECOND, if role == "" then "uac" else role);
  }

  /**
   * An INVITE that neither names an interval nor supports timers starts no session; one that names it starts it
   * anyway.
   */
  lemma NoSupportNoSession(invite: Option<string>, config: int)
    ensures ForAnswer(invite, config, false).Some? <==> ParseSessionExpires(invite).Some?
    ensures ParseSessionExpires(invite).None? ==>
              UasSession(invite, config, false) == None && AnswerHeader(invite, config, false) == None
  {}

  /**
   * Without a header the answering end proposes its own interval, if it has one and timers are supported; the
   * caller refreshes.
   */
  lemma OwnIntervalProposed(invite: Option<string>, config: int, supported: bool)
    requires ParseSessionExpires(invite).None?
    ensures UasSession(invite, config, supported)
            == if config > 0 && supported then Some(Session(config, false)) else None
  {
    hide ParseSessionExpires;
  }

  /** A header without parameters, as our own INVITE carries it, names no refresher. */
  lemma BareHeader(secs: nat)
    requires 0 < secs <= MAX64
    ensures ParseSessionExpires(Some(Decimal(secs))) == Some((Wrap64(secs * SECOND), ""))
  {
    hide Atoi, TrimSpace, Wrap64, Decimal;
    AtoiOfDecimal(secs);
    CutNone(Decimal(secs), ';');
    NoParameters();
  }

  lemma InRange(secs: nat)
    requires 0 < secs <= 9_223_372_036
    ensures Wrap64(secs * SECOND) == secs * SECOND && secs * SECOND / SECOND * SECOND == secs * SECOND
    ensures SECOND <= secs * SECOND <= MAX64
  {}

  lemma NoParameters()
    ensures Refresher(Split("", ';')) == ""
  {
    assert Cut("", ';') == ("", "", false);
    assert Split("", ';') == [""] && TrimSpace("") == "" && Cut("", '=') == ("", "", false);
    assert [""][..0] == [] && Refresher([]) == "";
  }

  /**
   * The caller refreshes a session that its INVITE names without a refresher, and a response to such a request
   * says so.
   */
  lemma CallerRefreshesByDefault(secs: nat, config: int, supported: bool)
    requires 0 < secs <= 9_223_372_036
    ensures var header := Some(Decimal(secs));
            && UasSession(header, config, supported) == Some(Session(secs * SECOND, false))
            && UacSession(AnswerHeader(header, config, supported)) == Some(Session(secs * SECOND, true))
            && ParseSessionExpires(Echo(header)) == Some((secs * SECOND, "uac"))
  {
    hide ParseSessionExpires, TimerHeader, Token, Decimal, Wrap64;
    BareHeader(secs);
    InRange(secs);
    KnownTokens();
    HeaderRoundTrip(secs * SECOND, "uac");
  }

  /** 292 years and more overflow the duration; one second above that is negative, and no session is started. */
  lemma HugeIntervalStartsNothing(config: int, supported: bool)
    ensures UasSession(Some(Decimal(9_223_372_037)), config, supported) == None
  {
    hide ParseSessionExpires, TimerHeader, Decimal;
    BareHeader(9_223_372_037);
  }

  /**
   * A configured interval of one second and a half: the answering end waits for that long, the caller refreshes
   * every second.
   */
  lemma FractionsAreNotShared()
    ensures UasSession(None, SECOND + SECOND / 2, true) == Some(Session(SECOND + SECOND / 2, false))
    ensures UacSession(AnswerHeader(None, SECOND + SECOND / 2, true)) == Some(Session(SECOND, true))
  {
    hide ParseSessionExpires, TimerHeader, Token;
    NoHeader();
    KnownTokens();
    HeaderRoundTrip(SECOND + SECOND / 2, "uac");
  }

  /** The end that a token names: "uac" is whoever sent the request. */
  function Named(senderIsA: bool, role: string): bool {
    if role == "uac" then senderIsA else !senderIsA
  }

  /**
   * Whichever end sends a later re-INVITE, its header and the response's name the same party and interval as the
   * call does.
   */
  lemma LaterHeadersNameTheSameParty(a: Session, b: Session, senderIsA: bool)
    requires a.refresher == !b.refresher && a.expires == b.expires && 0 < a.expires <= MAX64 && a.expires % SECOND == 0
    ensures var request := Some(RefreshHeader(if senderIsA then a else b));
            && ParseSessionExpires(request).Some? && ParseSessionExpires(Echo(request)) == ParseSessionExpires(request)
            && ParseSessionExpires(request).value.0 == a.expires
            && Named(senderIsA, ParseSessionExpires(request).value.1) == a.refresher
  {
    hide ParseSessionExpires, TimerHeader, Token;
    var s := if senderIsA then a else b;
    KnownTokens();
    HeaderRoundTrip(s.expires, if s.refresher then "uac" else "uas");
  }

  /* ---- Refreshes over time ---- */

  /** When each end last restarted its timer, and whether the waiting end has hung up. */
  datatype System = System(refresher: Alarm, waiting: Alarm, hungUp: bool)

  /**
   * One successful re-INVITE, sent `early` before the refresher's alarm: the refresh itself (early is 0) or a hold
   * that the refresher or the waiting end sends before it. It is answered after `request`, and the response is
   * back after `response`; each end restarts its timer when it has done its part.
   */
  datatype Round =
    | ByRefresher(early: nat, request: nat, response: nat)
    | ByWaiting(early: nat, request: nat, response: nat)
  {
    /**
     * A re-INVITE of the waiting end has reached the refresher before its alarm: otherwise the refresh meets the
     * lock.
     */
    predicate Possible() { ByWaiting? ==> request <= early }

    /** When the waiting end restarts its timer, relative to the refresher's alarm before. */
    function Reached(): int { (if ByRefresher? then request else request + response) - early }

    /** How much later than the waiting end the refresher restarts its timer. */
    function Lead(): int {
      var late: int := response;
      if ByRefresher? then late else -late
    }
  }

  function Next(s: System, expires: int, round: Round): System {
    var restarted := s.refresher.at + round.Reached();
    if s.hungUp || restarted >= s.waiting.at then s.(hungUp := true)
    else System(AlarmOf(Session(expires, true), restarted + round.Lead()),
                AlarmOf(Session(expires, false), restarted), false)
  }

  function After(s: System, expires: int, rounds: seq<Round>): System
    decreases |rounds|
  {
    if rounds == [] then s else Next(After(s, expires, rounds[..|rounds| - 1]), expires, rounds[|rounds| - 1])
  }

  /** The call once the refresher has started its timer `lead` after the waiting end. */
  function Begun(expires: int, lead: int): System {
    System(AlarmOf(Session(expires, true), lead), AlarmOf(Session(expires, false), 0), false)
  }

  /** What the end of one re-INVITE and the beginning of the next one have to fit in. */
  function Slack(expires: int): int {
    Deadline(expires) - Quotient(expires, 2)
  }

  function Before(lead: int, rounds: seq<Round>, k: nat): int
    requires k < |rounds|
  {
    if k == 0 then lead else rounds[k - 1].Lead()
  }

  /** Round k is over at the waiting end before its alarm. */
  predicate InTime(expires: int, lead: int, rounds: seq<Round>, k: nat)
    requires k < |rounds|
  {
    Before(lead, rounds, k) + rounds[k].Reached() < Slack(expires)
  }

  /**
   * Over any number of re-INVITEs of either end the waiting end never hangs up exactly when the end of each one
   * and the beginning of the next one fit in the slack together.
   */
  lemma {:induction false} StaysUpIff(expires: int, lead: int, rounds: seq<Round>)
    ensures var s := After(Begun(expires, lead), expires, rounds);
            && (!s.hungUp <==> forall k :: 0 <= k < |rounds| ==> InTime(expires, lead, rounds, k))
            && (!s.hungUp ==> s.refresher.at - s.waiting.at
                              == (if rounds == [] then lead else rounds[|rounds| - 1].Lead()) - Slack(expires))
    decreases |rounds|
  {
    hide Deadline, Quotient;
    if rounds != [] {
      var n: nat := |rounds| - 1;
      var before := rounds[..n];
      StaysUpIff(expires, lead, before);
      forall k | 0 <= k < n
        ensures InTime(expires, lead, rounds, k) <==> InTime(expires, lead, before, k)
      {
      }
      if !After(Begun(expires, lead), expires, before).hungUp {
        assert After(Begun(expires, lead), expires, rounds).hungUp <==> !InTime(expires, lead, rounds, n);
      }
    }
  }

  /**
   * Every re-INVITE takes less than a sixth of the interval, and so does the setup of the call; lead is negative when
   * the waiting end is the later one to start its timer.
   */
  ghost predicate Quick(expires: int, lead: int, rounds: seq<Round>) {
    && 6 * lead < expires
    && forall k :: 0 <= k < |rounds| ==> rounds[k].Possible() && 6 * (rounds[k].request + rounds[k].response) < expires
  }

  /**
   * Refreshes that each complete in under a sixth of the interval are enough exactly from 192 seconds on: the end
   * of one refresh and the beginning of the next one may take a third together.
   */
  lemma SixthIsEnoughIff(secs: nat)
    requires secs > 0
    ensures (forall lead: int, rounds: seq<Round> :: Quick(secs * SECOND, lead, rounds) ==>
               !After(Begun(secs * SECOND, lead), secs * SECOND, rounds).hungUp)
            <==> secs >= 192
  {
    hide After;
    var e := secs * SECOND;
    if secs >= 192 {
      forall lead: int, rounds: seq<Round> | Quick(e, lead, rounds)
        ensures !After(Begun(e, lead), e, rounds).hungUp
      {
        StaysUpIff(e, lead, rounds);
        forall k | 0 <= k < |rounds|
          ensures InTime(e, lead, rounds, k)
        {
          assert rounds[k].Possible() && 6 * (rounds[k].request + rounds[k].response) < e;
          if k > 0 {
            assert 6 * (rounds[k - 1].request + rounds[k - 1].response) < e;
          }
        }
      }
    } else {
      var d := (e - 1) / 6;
      var rounds := [ByRefresher(0, d, 0)];
      assert Quick(e, d, rounds);
      StaysUpIff(e, d, rounds);
      assert !InTime(e, d, rounds, 0);
    }
  }

  /** 180 seconds: a slow response and then a slow request, each within 30 seconds, are too much. */
  lemma TwoRefreshesAddUp()
    ensures var rounds := [ByRefresher(0, 0, 29 * SECOND), ByRefresher(0, 29 * SECOND, 0)];
            Quick(180 * SECOND, 0, rounds) && After(Begun(180 * SECOND, 0), 180 * SECOND, rounds).hungUp
  {
    hide After;
    var rounds := [ByRefresher(0, 0, 29 * SECOND), ByRefresher(0, 29 * SECOND, 0)];
    StaysUpIff(180 * SECOND, 0, rounds);
    assert !InTime(180 * SECOND, 0, rounds, 1);
  }

  /** A twelfth for the request and a twelfth for the response are enough for every interval. */
  lemma TwelfthIsEnough(expires: int, lead: int, rounds: seq<Round>)
    requires 12 * lead < expires
    requires forall k :: 0 <= k < |rounds| ==>
               rounds[k].Possible() && 12 * rounds[k].request < expires && 12 * rounds[k].response < expires
    ensures expires > 0 ==> !After(Begun(expires, lead), expires, rounds).hungUp
  {
    hide After;
    StaysUpIff(expires, lead, rounds);
    if expires > 0 {
      forall k | 0 <= k < |rounds|
        ensures InTime(expires, lead, rounds, k)
      {
        assert rounds[k].Possible() && 12 * rounds[k].request < expires;
        if k > 0 {
          assert 12 * rounds[k - 1].response < expires;
        }
      }
    }
  }

  /**
   * A refresher that falls silent is noticed: the alarm of the waiting end rings after the refresh is due and
   * before the session expires, by the margin of RFC 4028 (section 10).
   */
  lemma SilenceIsNoticed(secs: nat, now: int)
    requires secs > 0
    ensures var e := secs * SECOND;
            var waiting, refreshing := AlarmOf(Session(e, false), now), AlarmOf(Session(e, true), now);
            && waiting.Expire? && refreshing.at < waiting.at < now + e
            && now + e - waiting.at <= 32 * SECOND && 3 * (now + e - waiting.at) <= e
            && (now + e - waiting.at == 32 * SECOND || 3 * (now + e - waiting.at) > e - 3)
  {}
}
