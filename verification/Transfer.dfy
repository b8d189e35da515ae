/**
 * Attended transfer (engine/transfer.go): the dialog of the consultation call travels inside Refer-To to the
 * transferee and from there in Replaces to the transfer target, which must find its own end of it.
 */
module Transfer {
  import opened Options
  import opened Text

  /** What the Replaces header names: a dialog as the UA that receives it sees it. */
  datatype Replaces = Replaces(callId: string, toTag: string, fromTag: string)

  datatype Result<+T> = Ok(value: T) | Err(message: string)

  function Pair(key: string, value: string): string {
    key + ['='] + value
  }

  /** The value of the header, "<call-id>;to-tag=<tag>;from-tag=<tag>". */
  function Printed(r: Replaces): string {
    r.callId + [';'] + (Pair("to-tag", r.toTag) + [';'] + Pair("from-tag", r.fromTag))
  }

  /** The value of the last parameter with this name. */
  function Param(params: seq<string>, name: string): string {
    if params == [] then ""
    else
      var (k, v, _) := Cut(TrimSpace(params[|params| - 1]), '=');
      if Lower(k) == name then v else Param(params[..|params| - 1], name)
  }

  /** The parsing part of replacedCall. */
  function ParseReplaces(header: string): Replaces {
    var (callId, params, _) := Cut(TrimSpace(header), ';');
    Replaces(callId, Param(Split(params, ';'), "to-tag"), Param(Split(params, ';'), "from-tag"))
  }

  function ReferTo(uri: string, header: string): string
    requires Bytes(header)
  {
    ['<'] + (uri + ['?'] + Pair("Replaces", Escape(header))) + ['>']
  }

  /** The text between the first '<' and the first '>' after it; the whole of v without them. */
  function Bracketed(v: string): string {
    var (before, rest, open) := Cut(v, '<');
    var (inner, _, close) := Cut(rest, '>');
    if open && close then inner else v
  }

  /** The unescaped value of the last Replaces header field of a URI; None is a malformed escape in any of them. */
  function ReplacesField(fields: seq<string>, found: string): Option<string>
    decreases |fields|
  {
    if fields == [] then Some(found)
    else
      var (k, v, _) := Cut(fields[0], '=');
      if Lower(k) != "replaces" then ReplacesField(fields[1..], found)
      else match Unescape(v)
        case None => None
        case Some(u) => ReplacesField(fields[1..], u)
  }

  function ParseReferTo(header: Option<string>): Result<(string, string)> {
    if header.None? then Err("no Refer-To")
    else
      var (uri, headers, _) := Cut(Bracketed(TrimSpace(header.value)), '?');
      if uri == "" then Err("empty Refer-To")
      else match ReplacesField(Split(headers, '&'), "")
        case None => Err("bad escape")
        case Some(dialog) => Ok((uri, dialog))
  }

  /* ---- Dialogs and their two ends ---- */

  /** A call as one device holds it: it placed the call, or it answered it. */
  datatype Leg =
    | Uac(callId: string, inviteFrom: string, answerTo: Option<string>)
    | Uas(callId: string, inviteTo: string, inviteFrom: string)
  {
    /** Our tag and the peer's. */
    function Tags(): (string, string) {
      match this
      case Uac(_, from, to) => (from, if to.Some? then to.value else "")
      case Uas(_, to, from) => (to, from)
    }
  }

  /** A confirmed dialog; the caller's tag is in From of its INVITE, the callee's in To of the 2xx. */
  datatype Dialog = Dialog(callId: string, callerTag: string, calleeTag: string) {
    function CallerLeg(): Leg { Uac(callId, callerTag, Some(calleeTag)) }

    function CalleeLeg(): Leg { Uas(callId, calleeTag, callerTag) }

    /** The transferor's end and the transfer target's. */
    function Ends(placedByTransferor: bool): (Leg, Leg) {
      if placedByTransferor then (CallerLeg(), CalleeLeg()) else (CalleeLeg(), CallerLeg())
    }
  }

  /** AttendedTransfer: the consultation dialog with the tags as the other end sees them. */
  function Consultation(consult: Leg): Replaces {
    var (local, remote) := consult.Tags();
    Replaces(consult.callId, remote, local)
  }

  /** AttendedTransfer: the Refer-To header sent for this consultation call. */
  function TransferTo(consult: Leg, uri: string): string
    requires Bytes(consult.callId) && Bytes(consult.Tags().0) && Bytes(consult.Tags().1)
  {
    PrintedIsBytes(Consultation(consult));
    ReferTo(uri, Printed(Consultation(consult)))
  }

  /** replacedCall: the call found, and whether there was a Replaces header at all. */
  function ReplacedCall(calls: map<string, Leg>, header: Option<string>): (Option<Leg>, bool) {
    if header.None? then (None, false)
    else
      var r := ParseReplaces(header.value);
      if r.callId !in calls || calls[r.callId].Tags() != (r.toTag, r.fromTag) then (None, true)
      else (Some(calls[r.callId]), true)
  }

  /* ---- Print and parse ---- */

  /** What survives: no ';' anywhere, no space before the Call-ID, none after a tag. */
  ghost predicate Clean(r: Replaces) {
    && Free(r.callId, ';') && Free(r.toTag, ';') && Free(r.fromTag, ';')
    && (r.callId != "" ==> !IsSpace(r.callId[0]))
    && (r.toTag != "" ==> !IsSpace(r.toTag[|r.toTag| - 1]))
    && (r.fromTag != "" ==> !IsSpace(r.fromTag[|r.fromTag| - 1]))
  }

  /** Nothing that parsing returns is unclean, whatever the header. */
  lemma {:induction false} ParamIsClean(params: seq<string>, name: string)
    requires forall i :: 0 <= i < |params| ==> Free(params[i], ';')
    ensures var v := Param(params, name); Free(v, ';') && (v != "" ==> !IsSpace(v[|v| - 1]))
  {
    hide Cut, TrimSpace, Free, Lower;
    if params == [] {
      NothingIsFree(';');
    } else {
      ParamIsClean(params[..|params| - 1], name);
      TrimIsClean(params[|params| - 1]);
      CutIsClean(TrimSpace(params[|params| - 1]));
    }
  }

  lemma NothingIsFree(c: char)
    ensures Free("", c)
  {}

  lemma ParsedIsClean(header: string)
    ensures Clean(ParseReplaces(header))
  {
    var t := TrimSpace(header);
    var (callId, params, found) := Cut(t, ';');
    if callId != "" {
      assert callId[0] == t[0];
    }
    ParamIsClean(Split(params, ';'), "to-tag");
    ParamIsClean(Split(params, ';'), "from-tag");
  }

  lemma TagParam(params: seq<string>, key: string, tag: string, name: string)
    requires key == "to-tag" || key == "from-tag"
    requires tag != "" ==> !IsSpace(tag[|tag| - 1])
    ensures Param(params + [Pair(key, tag)], name) == if key == name then tag else Param(params, name)
  {
    hide Cut, TrimSpace, Lower;
    var p := Pair(key, tag);
    PairIsTrimmed(key, tag);
    CutAt(key, '=', tag);
    KeyIsLower();
    assert (params + [p])[..|params|] == params && (params + [p])[|params|] == p;
  }

  lemma KeyIsLower()
    ensures Lower("to-tag") == "to-tag" && Lower("from-tag") == "from-tag"
  {}

  lemma PairIsTrimmed(key: string, tag: string)
    requires key == "to-tag" || key == "from-tag"
    requires tag != "" ==> !IsSpace(tag[|tag| - 1])
    ensures TrimSpace(Pair(key, tag)) == Pair(key, tag)
  {
    TrimNothing(Pair(key, tag));
  }

  /** The two parameters of a printed header, as text. */
  lemma PrintedEdges(r: Replaces)
    requires Clean(r)
    ensures TrimSpace(Printed(r)) == Printed(r)
  {
    var header := Printed(r);
    assert header != "";
    assert header[0] == if r.callId != "" then r.callId[0] else ';';
    assert header[|header| - 1] == if r.fromTag != "" then r.fromTag[|r.fromTag| - 1] else '=';
    TrimNothing(header);
  }

  lemma PairIsFree(key: string, value: string, c: char)
    requires Free(key, c) && c != '=' && Free(value, c)
    ensures Free(Pair(key, value), c)
  {}

  lemma PrintedParams(to: string, from: string)
    requires Free(to, ';') && Free(from, ';')
    requires to != "" ==> !IsSpace(to[|to| - 1])
    requires from != "" ==> !IsSpace(from[|from| - 1])
    ensures var params := Split(Pair("to-tag", to) + [';'] + Pair("from-tag", from), ';');
            Param(params, "to-tag") == to && Param(params, "from-tag") == from
  {
    var p, q := Pair("to-tag", to), Pair("from-tag", from);
    PairIsFree("to-tag", to, ';');
    PairIsFree("from-tag", from, ';');
    hide Cut, Split, Param, TrimSpace, Pair, Free;
    SplitAt(p, ';', q);
    SplitNone(q, ';');
    assert [p] + [q] == [] + [p] + [q];
    TagParam([], "to-tag", to, "to-tag");
    TagParam([] + [p], "from-tag", from, "to-tag");
    TagParam([] + [p], "from-tag", from, "from-tag");
  }

  /** The header is read back as it was printed exactly when it names a clean dialog. */
  lemma ReplacesRoundTrip(r: Replaces)
    ensures ParseReplaces(Printed(r)) == r <==> Clean(r)
  {
    hide Cut, Split, Param, TrimSpace, Clean, Pair, Free;
    ParsedIsClean(Printed(r));
    if Clean(r) {
      PrintedEdges(r);
      CleanIsFree(r);
      CutAt(r.callId, ';', Pair("to-tag", r.toTag) + [';'] + Pair("from-tag", r.fromTag));
      PrintedParams(r.toTag, r.fromTag);
    }
  }

  lemma CleanIsFree(r: Replaces)
    requires Clean(r)
    ensures Free(r.callId, ';') && Free(r.toTag, ';') && Free(r.fromTag, ';')
    ensures r.toTag != "" ==> !IsSpace(r.toTag[|r.toTag| - 1])
    ensures r.fromTag != "" ==> !IsSpace(r.fromTag[|r.fromTag| - 1])
  {}

  /* ---- The whole chain ---- */

  lemma FreeOf(s: string, c: char)
    requires Bytes(s) && !Unreserved(c) && c != '%' && c != '+'
    ensures Free(Escape(s), c)
  {
    EscapedIsPlain(s);
  }

  lemma PrintedIsBytes(r: Replaces)
    requires Bytes(r.callId) && Bytes(r.toTag) && Bytes(r.fromTag)
    ensures Bytes(Printed(r)) && Printed(r) != ""
  {}

  /** Cutting the brackets off. */
  lemma Unbracketed(inner: string)
    requires Free(inner, '>')
    ensures TrimSpace(['<'] + inner + ['>']) == ['<'] + inner + ['>'] && Bracketed(['<'] + inner + ['>']) == inner
  {
    var v := ['<'] + inner + ['>'];
    TrimNothing(v);
    hide Cut;
    assert v == "" + ['<'] + (inner + ['>'] + "");
    CutAt("", '<', inner + ['>'] + "");
    CutAt(inner, '>', "");
  }

  lemma NameMatches()
    ensures Lower("Replaces") == "replaces"
  {}

  lemma LastField(field: string, header: string)
    requires Lower(Cut(field, '=').0) == "replaces" && Unescape(Cut(field, '=').1) == Some(header)
    ensures ReplacesField([field], "") == Some(header)
  {
    hide Cut, Lower, Unescape;
    assert ReplacesField([field][1..], header) == Some(header);
  }

  lemma NameIsFree()
    ensures Free("Replaces", '&') && Free("Replaces", '>') && Free("Replaces", '=')
  {}

  lemma OneField(e: string, header: string)
    requires Free(e, '&') && Unescape(e) == Some(header)
    ensures ReplacesField(Split(Pair("Replaces", e), '&'), "") == Some(header)
  {
    hide Cut, Split, Unescape, Lower, ReplacesField, Free;
    NameIsFree();
    PairIsFree("Replaces", e, '&');
    SplitNone(Pair("Replaces", e), '&');
    CutAt("Replaces", '=', e);
    NameMatches();
    LastField(Pair("Replaces", e), header);
  }

  /** The transferee reads back the target and the unescaped value, for every value and every plain target. */
  lemma ReferToRoundTrip(uri: string, header: string)
    requires Bytes(header) && uri != "" && Free(uri, '>') && Free(uri, '?')
    ensures ParseReferTo(Some(ReferTo(uri, header))) == Ok((uri, header))
  {
    var e := Escape(header);
    FreeOf(header, '>');
    FreeOf(header, '&');
    EscapeRoundTrip(header);
    PairIsFree("Replaces", e, '>');
    var inner := uri + ['?'] + Pair("Replaces", e);
    assert Free(inner, '>');
    hide Cut, Split, Escape, Unescape, TrimSpace, Unreserved, Pair, Bracketed, ReplacesField;
    Unbracketed(inner);
    CutAt(uri, '?', Pair("Replaces", e));
    OneField(e, header);
  }

  /**
   * Whichever side placed the consultation call, the transfer target that receives the INVITE with the Replaces
   * value of the transferor's Refer-To finds its own end of that dialog, and nothing else: it finds a call exactly
   * when it holds, under the dialog's Call-ID, a call with the tags of its end.
   */
  lemma AttendedTransferFindsDialog(d: Dialog, placedByTransferor: bool, uri: string, calls: map<string, Leg>)
    requires Bytes(d.callId) && Bytes(d.callerTag) && Bytes(d.calleeTag)
    requires uri != "" && Free(uri, '>') && Free(uri, '?')
    requires Clean(Consultation(d.Ends(placedByTransferor).0))
    ensures var (consult, far) := d.Ends(placedByTransferor);
            var parsed := ParseReferTo(Some(TransferTo(consult, uri)));
            && parsed.Ok? && parsed.value.0 == uri && parsed.value.1 != ""
            && var found := ReplacedCall(calls, Some(parsed.value.1));
               && found.1
               && (d.callId in calls && calls[d.callId] == far ==> found.0 == Some(far))
               && (found.0.Some? <==> d.callId in calls && calls[d.callId].Tags() == far.Tags())
               && (found.0.Some? ==> found.0.value == calls[d.callId])
  {
    hide ParseReferTo, ParseReplaces, ReferTo, Printed, Clean, Bytes, Free;
    var consult := d.Ends(placedByTransferor).0;
    PrintedIsBytes(Consultation(consult));
    ReferToRoundTrip(uri, Printed(Consultation(consult)));
    ReplacesRoundTrip(Consultation(consult));
  }

  /* ---- Other forms of Refer-To ---- */

  lemma NoHeaders()
    ensures ReplacesField(Split("", '&'), "") == Some("")
  {
    assert Cut("", '&') == ("", "", false);
    assert Split("", '&') == [""] && Cut("", '=') == ("", "", false) && Lower("") == "";
    assert [""][1..] == [];
  }

  /** A blind transfer, as Transfer sends it: the target, and no dialog to replace. */
  lemma BlindReferTo(uri: string)
    requires uri != "" && Free(uri, '>') && Free(uri, '?')
    ensures ParseReferTo(Some(['<'] + uri + ['>'])) == Ok((uri, ""))
  {
    hide Cut, Split, TrimSpace, Bracketed, ReplacesField;
    Unbracketed(uri);
    CutNone(uri, '?');
    NoHeaders();
  }

  /** The same for a value in which one of the brackets is missing. */
  lemma BareReferTo(uri: string)
    requires uri != "" && (Free(uri, '<') || Free(uri, '>')) && Free(uri, '?')
    requires !IsSpace(uri[0]) && !IsSpace(uri[|uri| - 1])
    ensures ParseReferTo(Some(uri)) == Ok((uri, ""))
  {
    TrimNothing(uri);
    NotBracketed(uri);
    hide Cut, Split, TrimSpace, ReplacesField, Free, Bracketed;
    CutNone(uri, '?');
    NoHeaders();
  }

  lemma NotBracketed(v: string)
    requires Free(v, '<') || Free(v, '>')
    ensures Bracketed(v) == v
  {
    hide Cut;
    var (before, rest, open) := Cut(v, '<');
    if Free(v, '<') {
      CutNone(v, '<');
    } else if open {
      assert v == before + ['<'] + rest;
      FreeTail(before + ['<'], rest, '>');
      CutNone(rest, '>');
    }
  }

  lemma FreeTail(a: string, b: string, c: char)
    requires Free(a + b, c)
    ensures Free(b, c)
  {
    forall i | 0 <= i < |b|
      ensures b[i] != c
    {
      assert b[i] == (a + b)[|a| + i];
    }
  }

  /** The name of the field is read in any case, and fields of other names around it are ignored. */
  lemma AnyCaseReferTo(uri: string, key: string, header: string, other: string, value: string)
    requires Bytes(header) && uri != "" && Free(uri, '>') && Free(uri, '?')
    requires Lower(key) == "replaces" && Free(key, '=') && Free(key, '>') && Free(key, '&')
    requires Lower(other) != "replaces" && Free(other, '=') && Free(other, '>') && Free(other, '&')
    requires Free(value, '>') && Free(value, '&')
    ensures var fields := Pair(other, value) + ['&'] + (Pair(key, Escape(header)) + ['&'] + Pair(other, value));
            ParseReferTo(Some(['<'] + (uri + ['?'] + fields) + ['>'])) == Ok((uri, header))
  {
    hide Cut, Split, TrimSpace, Bracketed, ReplacesField, Escape, Pair, Free, ParseReferTo, Lower;
    var p, q := Pair(other, value), Pair(key, Escape(header));
    FreeOf(header, '>');
    FreeOf(header, '&');
    PairIsFree(other, value, '>');
    PairIsFree(other, value, '&');
    PairIsFree(key, Escape(header), '>');
    PairIsFree(key, Escape(header), '&');
    FreeJoin(q, p, '&', '>');
    FreeJoin(p, q + ['&'] + p, '&', '>');
    HeadersRead(uri, p + ['&'] + (q + ['&'] + p));
    SplitAt(p, '&', q + ['&'] + p);
    SplitAt(q, '&', p);
    SplitNone(p, '&');
    assert [p] + ([q] + [p]) == [p, q, p];
    ThreeFields(key, header, other, value);
  }

  lemma FreeJoin(a: string, b: string, c: char, d: char)
    requires Free(a, d) && Free(b, d) && c != d
    ensures Free(a + [c] + b, d)
  {}

  /** The target and whatever headers follow it. */
  lemma HeadersRead(uri: string, fields: string)
    requires uri != "" && Free(uri, '>') && Free(uri, '?') && Free(fields, '>')
    ensures ParseReferTo(Some(['<'] + (uri + ['?'] + fields) + ['>']))
            == match ReplacesField(Split(fields, '&'), "")
               case None => Err("bad escape")
               case Some(dialog) => Ok((uri, dialog))
  {
    hide Cut, Split, TrimSpace, Bracketed, ReplacesField, Free;
    FreeJoin(uri, fields, '?', '>');
    Unbracketed(uri + ['?'] + fields);
    CutAt(uri, '?', fields);
  }

  lemma ThreeFields(key: string, header: string, other: string, value: string)
    requires Bytes(header) && Lower(key) == "replaces" && Free(key, '=')
    requires Lower(other) != "replaces" && Free(other, '=')
    ensures var p, q := Pair(other, value), Pair(key, Escape(header)); ReplacesField([p, q, p], "") == Some(header)
  {
    hide Cut, Lower, Escape, Unescape;
    var p, q := Pair(other, value), Pair(key, Escape(header));
    CutAt(other, '=', value);
    CutAt(key, '=', Escape(header));
    EscapeRoundTrip(header);
    assert [p, q, p][1..] == [q, p] && [q, p][1..] == [p] && [p][1..] == [];
    assert ReplacesField([], header) == Some(header);
    assert ReplacesField([p], header) == Some(header);
    assert ReplacesField([q, p], "") == Some(header);
  }

  /** Spaces around a value are ignored. */
  lemma SpacedReferTo(before: string, value: string, after: string)
    requires Blank(before) && Blank(after) && value != "" && !IsSpace(value[0]) && !IsSpace(value[|value| - 1])
    ensures ParseReferTo(Some(before + value + after)) == ParseReferTo(Some(value))
  {
    SpacesAround(before, value, after);
    TrimNothing(value);
    hide Cut, Split, TrimSpace, Bracketed, ReplacesField, Blank, IsSpace;
  }

  lemma {:induction false} FieldsInTurn(a: seq<string>, b: seq<string>, found: string)
    ensures ReplacesField(a + b, found)
            == match ReplacesField(a, found) case None => None case Some(u) => ReplacesField(b, u)
    decreases |a|
  {
    hide Cut, Lower, Unescape;
    if a == [] {
      assert a + b == b;
    } else {
      assert (a + b)[1..] == a[1..] + b;
      FieldsInTurn(a[1..], b, match Unescape(Cut(a[0], '=').1) case None => "" case Some(u) => u);
      FieldsInTurn(a[1..], b, found);
    }
  }

  predicate NamesReplaces(field: string) { Lower(Cut(field, '=').0) == "replaces" }

  lemma {:induction false} OtherFields(fields: seq<string>, found: string)
    requires forall i :: 0 <= i < |fields| ==> !NamesReplaces(fields[i])
    ensures ReplacesField(fields, found) == Some(found)
    decreases |fields|
  {
    if fields != [] {
      OtherFields(fields[1..], found);
    }
  }

  /** Of several Replaces fields the last one counts. */
  lemma LastReplacesCounts(before: seq<string>, key: string, e: string, after: seq<string>)
    requires Lower(key) == "replaces" && Free(key, '=')
    requires ReplacesField(before, "").Some? && forall i :: 0 <= i < |after| ==> !NamesReplaces(after[i])
    ensures ReplacesField(before + ([Pair(key, e)] + after), "") == Unescape(e)
  {
    CutAt(key, '=', e);
    FieldsInTurn(before, [Pair(key, e)] + after, "");
    var found := ReplacesField(before, "").value;
    hide Cut, Lower, Unescape, NamesReplaces;
    assert ([Pair(key, e)] + after)[1..] == after;
    if Unescape(e).Some? {
      OtherFields(after, Unescape(e).value);
    }
  }

  predicate NamesParam(p: string, name: string) { Lower(Cut(TrimSpace(p), '=').0) == name }

  /** The last parameter of a Replaces value counts, in any case and with any spaces around it. */
  lemma {:induction false} LastParamCounts(before: seq<string>, p: string, name: string, after: seq<string>)
    requires NamesParam(p, name) && forall i :: 0 <= i < |after| ==> !NamesParam(after[i], name)
    ensures Param(before + [p] + after, name) == Cut(TrimSpace(p), '=').1
  {
    hide Param, NamesParam, Cut, TrimSpace;
    if after == [] {
      assert before + [p] + after == before + [p];
      LastParam(before, p, name);
    } else {
      var n := |after| - 1;
      assert before + [p] + after == (before + [p] + after[..n]) + [after[n]];
      LastParam(before + [p] + after[..n], after[n], name);
      LastParamCounts(before, p, name, after[..n]);
    }
  }

  lemma LastParam(params: seq<string>, p: string, name: string)
    ensures Param(params + [p], name) == if NamesParam(p, name) then Cut(TrimSpace(p), '=').1 else Param(params, name)
  {
    hide Cut, TrimSpace, Lower;
    assert (params + [p])[..|params|] == params;
  }

  lemma AnyCaseParam(before: string, key: string, val: string, after: string, name: string)
    requires Blank(before) && Blank(after) && Lower(key) == name && Free(key, '=')
    requires key != "" && !IsSpace(key[0]) && (val != "" ==> !IsSpace(val[|val| - 1]))
    ensures var p := before + Pair(key, val) + after; NamesParam(p, name) && Cut(TrimSpace(p), '=').1 == val
  {
    var p := Pair(key, val);
    assert p[0] == key[0] && p[|p| - 1] == if val == "" then '=' else val[|val| - 1];
    hide Cut, TrimSpace, Lower, Free, Blank;
    SpacesAround(before, p, after);
    CutAt(key, '=', val);
  }

  /** No header, no target, and an escape that is none: an error each. */
  lemma BadReferTo(uri: string, e: string)
    requires uri != "" && Free(uri, '>') && Free(uri, '?')
    requires Free(e, '>') && Free(e, '&') && Unescape(e) == None
    ensures ParseReferTo(None).Err? && ParseReferTo(Some("<>")).Err?
    ensures ParseReferTo(Some(['<'] + (uri + ['?'] + Pair("Replaces", e)) + ['>'])).Err?
  {
    hide *;
    EmptyBrackets();
    NoReferTo();
    BadEscape(uri, e);
  }

  lemma BadEscape(uri: string, e: string)
    requires uri != "" && Free(uri, '>') && Free(uri, '?')
    requires Free(e, '>') && Free(e, '&') && Unescape(e) == None
    ensures ParseReferTo(Some(['<'] + (uri + ['?'] + Pair("Replaces", e)) + ['>'])).Err?
  {
    hide *;
    var field := Pair("Replaces", e);
    FieldIsFree(e);
    MalformedField(e);
    HeadersRead(uri, field);
    SplitNone(field, '&');
  }

  lemma FieldIsFree(e: string)
    requires Free(e, '>') && Free(e, '&')
    ensures Free(Pair("Replaces", e), '>') && Free(Pair("Replaces", e), '&')
  {}

  lemma NoReferTo()
    ensures ParseReferTo(None).Err?
  {}

  lemma MalformedField(e: string)
    requires Unescape(e) == None
    ensures ReplacesField([Pair("Replaces", e)], "") == None
  {
    NameMatches();
    hide Cut, Unescape, Lower;
    CutAt("Replaces", '=', e);
  }

  lemma EmptyBrackets()
    ensures ParseReferTo(Some("<>")).Err?
  {
    hide Cut, Split, TrimSpace, Bracketed, ReplacesField;
    assert ['<'] + "" + ['>'] == "<>";
    EmptyIsFree();
    Unbracketed("");
    CutNone("", '?');
  }

  lemma EmptyIsFree()
    ensures Free("", '>') && Free("", '?')
  {}

  /**
   * The dialog is named as the far end knows it: to-tag is the tag in the far end's own From or To, from-tag the
   * transferor's, whoever placed the consultation call (section 3 of RFC 3891).
   */
  lemma ConsultationNamesFarEnd(d: Dialog)
    ensures Consultation(d.CallerLeg()) == Replaces(d.callId, d.calleeTag, d.callerTag)
    ensures Consultation(d.CalleeLeg()) == Replaces(d.callId, d.callerTag, d.calleeTag)
    ensures Printed(Consultation(d.CallerLeg()))
            == d.callId + [';'] + ("to-tag=" + d.calleeTag + [';'] + ("from-tag=" + d.callerTag))
  {
    assert "to-tag" + ['='] == "to-tag=" && "from-tag" + ['='] == "from-tag=";
  }
}
