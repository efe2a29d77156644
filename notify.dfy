/** The notification channels of utils.py: Qmsg (a QQ message relay), SMTP
    mail and Pushplus, each checking its configuration once when it is built,
    and `SendMessage`, which sends one message through all three and keeps a
    report of what each answered.  The network is a parameter: each send is
    given what the server answered, or the text of the exception the call
    raised, and the request it would make is returned as a value. */
module Notify {
  import opened Text
  import opened Py

  /** What a channel answers when its configuration was rejected. */
  const InvalidConfig := "无效配置"

  /** What a network call came back with: a response with its status code
      (for SMTP: the exchange completed), or an exception and its text. */
  datatype NetOutcome = Response(status: int) | Failure(message: string)

  /** What a channel's send returns, or the text of the exception it lets through. */
  datatype Reply = Returned(text: string) | Threw(message: string)

  /** The request a channel hands to the network. */
  datatype Post =
    | QmsgPost(url: string, msg: string, qq: string)
    | MailPost(host: string, port: int, user: string, key: string, sender: string,
               senderName: PyValue, receivers: seq<Scalar>, subject: string, html: string)
    | PushplusPost(api: string, params: PushplusParams, title: string, content: string)

  /** Pushplus parameters: a bare token, or a query string whose decoding
      (`parse_qs`) is not part of this model. */
  datatype PushplusParams = Token(token: string) | Query(query: string)

  function AsSeq(p: Option<Post>): seq<Post>
  {
    if p.Some? then [p.value] else []
  }

  // ---------------------------------------------------------------------
  // Qmsg

  predicate IsLowerHex(c: char) { '0' <= c <= '9' || 'a' <= c <= 'f' }

  /** `^[0-9a-f]{32}$`. */
  predicate KeyPattern(key: string)
  {
    var t := StripFinalNewline(key);
    |t| == 32 && forall i :: 0 <= i < |t| ==> IsLowerHex(t[i])
  }

  /** `^\d+(,\d+)*$`: runs of digits with one comma between neighbours. */
  predicate QqPattern(qq: string)
  {
    AllDigitRuns(Split(StripFinalNewline(qq), ','))
  }

  predicate AllDigitRuns(parts: seq<string>)
  {
    forall k :: 0 <= k < |parts| ==> IsDigitRun(parts[k])
  }

  /** The same language described character by character: not empty, only
      digits and commas, a digit at both ends and never two commas in a row. */
  predicate QqList(t: string)
  {
    && |t| > 0
    && IsDigit(t[0])
    && IsDigit(t[|t| - 1])
    && DigitsAndCommas(t)
    && NoDoubleComma(t)
  }

  predicate DigitsAndCommas(t: string)
  {
    forall i :: 0 <= i < |t| ==> IsDigit(t[i]) || t[i] == ','
  }

  predicate NoDoubleComma(t: string)
  {
    forall i :: 0 <= i < |t| - 1 ==> !(t[i] == ',' && t[i + 1] == ',')
  }

  /** What may follow the first digit of a QQ list. */
  predicate QqTail(u: string)
  {
    DigitsAndCommas(u) && NoDoubleComma(u) && (|u| > 0 ==> u[|u| - 1] != ',')
  }

  /** The pieces of a QQ list after its first digit: the first piece may be
      empty (it continues that digit's run), the others may not. */
  predicate TailPieces(parts: seq<string>)
    requires |parts| >= 1
  {
    AllDigits(parts[0]) && forall k :: 1 <= k < |parts| ==> IsDigitRun(parts[k])
  }

  lemma {:induction false} QqTailPieces(u: string)
    ensures TailPieces(Split(u, ',')) <==> QqTail(u)
  {
    if u != [] {
      QqTailPieces(u[1..]);
      if u[0] == ',' {
        QqTailComma(u);
      } else {
        QqTailDigit(u);
      }
    }
  }

  /** The step of `QqTailPieces` for a tail that starts with a comma. */
  lemma QqTailComma(u: string)
    requires u != [] && u[0] == ','
    requires TailPieces(Split(u[1..], ',')) <==> QqTail(u[1..])
    ensures TailPieces(Split(u, ',')) <==> QqTail(u)
  {
    var rest := Split(u[1..], ',');
    assert Split(u, ',') == [""] + rest;
    TailPiecesEmptyHead(rest);
    EmptyFirstPiece(u[1..]);
    CommaTailChars(u);
  }

  /** The step of `QqTailPieces` for a tail that starts with anything else. */
  lemma QqTailDigit(u: string)
    requires u != [] && u[0] != ','
    requires TailPieces(Split(u[1..], ',')) <==> QqTail(u[1..])
    ensures TailPieces(Split(u, ',')) <==> QqTail(u)
  {
    var rest := Split(u[1..], ',');
    assert Split(u, ',') == [[u[0]] + rest[0]] + rest[1..];
    TailPiecesGlue(u[0], rest);
    DigitTailChars(u);
  }

  /** A comma may start a tail only if a digit follows it. */
  lemma CommaTailChars(u: string)
    requires u != [] && u[0] == ','
    ensures QqTail(u) <==> |u| > 1 && u[1] != ',' && QqTail(u[1..])
  {
    assert forall i :: 0 <= i < |u| - 1 ==> u[1..][i] == u[i + 1];
  }

  /** Any other first character of a tail must be a digit. */
  lemma DigitTailChars(u: string)
    requires u != [] && u[0] != ','
    ensures QqTail(u) <==> IsDigit(u[0]) && QqTail(u[1..])
  {
    assert forall i :: 0 <= i < |u| - 1 ==> u[1..][i] == u[i + 1];
  }

  /** The first piece of a split is empty exactly when the text starts with the separator. */
  lemma EmptyFirstPiece(v: string)
    ensures Split(v, ',')[0] == [] <==> v == [] || v[0] == ','
  {
    if v != [] && v[0] != ',' {
      assert Split(v, ',')[0] == [v[0]] + Split(v[1..], ',')[0];
    }
  }

  lemma TailPiecesEmptyHead(rest: seq<string>)
    requires |rest| >= 1
    ensures TailPieces([""] + rest) <==> rest[0] != [] && TailPieces(rest)
  {
    var parts := [""] + rest;
    assert forall k :: 1 <= k < |parts| ==> parts[k] == rest[k - 1];
    if rest[0] != [] && TailPieces(rest) {
      assert forall k :: 0 <= k < |rest| ==> IsDigitRun(rest[k]);
    }
    if TailPieces(parts) {
      assert IsDigitRun(parts[1]) && parts[1] == rest[0];
      forall k | 1 <= k < |rest|
        ensures IsDigitRun(rest[k])
      {
        assert parts[k + 1] == rest[k];
      }
    }
  }

  lemma TailPiecesGlue(c: char, rest: seq<string>)
    requires |rest| >= 1
    ensures TailPieces([[c] + rest[0]] + rest[1..]) <==> IsDigit(c) && TailPieces(rest)
  {
    var parts := [[c] + rest[0]] + rest[1..];
    assert forall k :: 1 <= k < |parts| ==> parts[k] == rest[k];
    assert AllDigits(parts[0]) <==> IsDigit(c) && AllDigits(rest[0]) by {
      assert parts[0][0] == c;
      assert forall i :: 0 <= i < |rest[0]| ==> rest[0][i] == parts[0][i + 1];
    }
  }

  /** A QQ list is a digit followed by a valid tail. */
  lemma QqListTail(t: string)
    requires |t| > 0 && IsDigit(t[0])
    ensures QqList(t) <==> QqTail(t[1..])
  {
    assert forall i :: 1 <= i < |t| ==> t[i] == t[1..][i - 1];
  }

  /** The split reading of `^\d+(,\d+)*$` and the character-level one agree. */
  lemma {:induction false} QqPatternChars(t: string)
    ensures AllDigitRuns(Split(t, ',')) <==> QqList(t)
  {
    var parts := Split(t, ',');
    if t == [] || !IsDigit(t[0]) {
      if t == [] {
        assert parts == [""];
      } else if t[0] == ',' {
        assert parts == [""] + Split(t[1..], ',');
      } else {
        assert parts[0] == [t[0]] + Split(t[1..], ',')[0];
        assert parts[0][0] == t[0];
      }
      assert !IsDigitRun(parts[0]);
    } else {
      var rest := Split(t[1..], ',');
      QqTailPieces(t[1..]);
      QqListTail(t);
      assert parts == [[t[0]] + rest[0]] + rest[1..];
      assert forall k :: 1 <= k < |parts| ==> parts[k] == rest[k];
      assert AllDigits(parts[0]) <==> AllDigits(rest[0]) by {
        assert forall i :: 0 <= i < |rest[0]| ==> rest[0][i] == parts[0][i + 1];
      }
    }
  }

  /** `Qmsg.isCorrectConfig`: both values are strings, the key is 32 lower-case
      hexadecimal digits and the QQ numbers are digit runs separated by single
      commas (each pattern also tolerates one final newline). */
  function QmsgIsCorrectConfig(key: PyValue, qq: PyValue): (ok: bool)
    ensures ok <==>
              && IsStr(key) && IsStr(qq)
              && KeyPattern(key.a.s)
              && QqList(StripFinalNewline(qq.a.s))
  {
    if !IsStr(key) then false
    else if !IsStr(qq) then false
    else if !KeyPattern(key.a.s) then false
    else
      QqPatternChars(StripFinalNewline(qq.a.s));
      QqPattern(qq.a.s)
  }

  /** The mathematical bold digit U+1D7CE + `d` that Qmsg sends instead of `d`. */
  function BoldDigit(d: nat): (c: char)
    requires d < 10
    ensures !IsDigit(c)
  {
    (0x1D7CE + d) as char
  }

  function Embolden(c: char): char
  {
    if IsDigit(c) then BoldDigit(DigitValue(c)) else c
  }

  /** `c` after the digits below `d` were replaced. */
  function EmboldenBelow(c: char, d: nat): char
  {
    if IsDigit(c) && DigitValue(c) < d then BoldDigit(DigitValue(c)) else c
  }

  /** The message with every ASCII digit in bold. */
  function BoldText(s: string): (r: string)
    ensures |r| == |s|
    ensures forall i :: 0 <= i < |r| ==> !IsDigit(r[i])
  {
    seq(|s|, i requires 0 <= i < |s| => Embolden(s[i]))
  }

  predicate IsBoldDigit(c: char) { 0x1D7CE <= c as int < 0x1D7CE + 10 }

  /** Reading bold digits back as ASCII digits. */
  function Unbold(s: string): string
  {
    seq(|s|, i requires 0 <= i < |s| => if IsBoldDigit(s[i]) then DigitChar(s[i] as int - 0x1D7CE) else s[i])
  }

  /** Nothing but the digits changes: a message without bold digits of its
      own is recovered from what Qmsg sends. */
  lemma BoldRoundTrip(s: string)
    requires forall i :: 0 <= i < |s| ==> !IsBoldDigit(s[i])
    ensures Unbold(BoldText(s)) == s
  {
    var b := BoldText(s);
    forall i | 0 <= i < |s|
      ensures Unbold(b)[i] == s[i]
    {
      if IsDigit(s[i]) {
        assert IsBoldDigit(b[i]);
        assert DigitChar(b[i] as int - 0x1D7CE) == DigitChar(DigitValue(s[i]));
      }
    }
  }

  function QmsgUrl(isGroup: PyValue, key: string): string
  {
    "https://qmsg.zendee.cn/" + (if Truthy(isGroup) then "group/" else "send/") + key
  }

  /** `str(res)` of a `requests` response. */
  function ResponseText(status: int): string
  {
    "<Response [" + IntToStr(status) + "]>"
  }

  /** What `Qmsg.send` answers: the rejection text, the response's text, or
      the exception of the post. */
  function QmsgReply(configIsCorrect: bool, net: NetOutcome): (r: Reply)
    ensures r == Returned(InvalidConfig) <==> !configIsCorrect
    ensures r.Threw? <==> configIsCorrect && net.Failure?
  {
    if !configIsCorrect then Returned(InvalidConfig)
    else match net
      case Response(status) => Returned(ResponseText(status))
      case Failure(e) => Threw(e)
  }

  class Qmsg {
    const key: PyValue
    const qq: PyValue
    const isGroup: PyValue

    constructor (key: PyValue, qq: PyValue, isGroup: PyValue)
      ensures this.key == key && this.qq == qq && this.isGroup == isGroup
    {
      this.key := key;
      this.qq := qq;
      this.isGroup := isGroup;
    }

    function ConfigIsCorrect(): bool
    {
      QmsgIsCorrectConfig(key, qq)
    }

    /** The post `send(msg)` makes: none for a rejected configuration. */
    function Request(msg: string): (p: Option<Post>)
      ensures p.Some? <==> ConfigIsCorrect()
      ensures p.Some? ==> p.value.QmsgPost? && |p.value.msg| == |msg| && forall i :: 0 <= i < |msg| ==> !IsDigit(p.value.msg[i])
    {
      if ConfigIsCorrect() then Some(QmsgPost(QmsgUrl(isGroup, key.a.s), BoldText(msg), qq.a.s)) else None
    }

    /** `Qmsg.send(msg)`: every digit of the message is replaced by its bold
        form, one digit at a time; then the message is posted unless the
        configuration was rejected. */
    method Send(msg: string, net: NetOutcome) returns (r: Reply, post: Option<Post>)
      ensures post == Request(msg)
      ensures r == QmsgReply(ConfigIsCorrect(), net)
    {
      var m := msg;
      for d := 0 to 10
        invariant |m| == |msg|
        invariant forall i :: 0 <= i < |m| ==> m[i] == EmboldenBelow(msg[i], d)
      {
        m := Replace(m, DigitChar(d), [BoldDigit(d)]);
      }
      assert m == BoldText(msg);
      if !ConfigIsCorrect() {
        return Returned(InvalidConfig), None;
      }
      post := Some(QmsgPost(QmsgUrl(isGroup, key.a.s), m, qq.a.s));
      match net
      case Response(status) => r := Returned(ResponseText(status));
      case Failure(e) => r := Threw(e);
    }
  }

  // ---------------------------------------------------------------------
  // SMTP

  /** A configuration value SMTP accepts: a non-empty string without `*`. */
  predicate Usable(v: PyValue)
  {
    IsStr(v) && |v.a.s| > 0 && '*' !in v.a.s
  }

  /** What `Smtp.isCorrectConfig` accepts: a `list` of receivers, and the host,
      user, key, sender and every receiver usable.  The sender's name is not
      checked. */
  predicate SmtpConfigOk(host: PyValue, user: PyValue, key: PyValue, sender: PyValue, receivers: PyValue)
  {
    && receivers.List?
    && Usable(host) && Usable(user) && Usable(key) && Usable(sender)
    && forall k :: 0 <= k < |receivers.items| ==> Usable(Atom(receivers.items[k]))
  }

  /** `Smtp.isCorrectConfig`: one pass over host, user, key, sender and the
      receivers, stopping at the first value that is not usable. */
  method SmtpIsCorrectConfig(host: PyValue, user: PyValue, key: PyValue, sender: PyValue, receivers: PyValue)
    returns (ok: bool)
    ensures ok <==> SmtpConfigOk(host, user, key, sender, receivers)
  {
    if !receivers.List? {
      return false;
    }
    var items := [host, user, key, sender] + seq(|receivers.items|, k requires 0 <= k < |receivers.items| => Atom(receivers.items[k]));
    for i := 0 to |items|
      invariant forall j :: 0 <= j < i ==> Usable(items[j])
    {
      var item := items[i];
      if !IsStr(item) {
        return false;
      }
      if |item.a.s| == 0 {
        return false;
      }
      if '*' in item.a.s {
        return false;
      }
    }
    assert items[0] == host && items[1] == user && items[2] == key && items[3] == sender;
    assert forall k :: 0 <= k < |receivers.items| ==> items[k + 4] == Atom(receivers.items[k]);
    return true;
  }

  /** What `Smtp.sendmail` answers. */
  function SmtpReply(configIsCorrect: bool, net: NetOutcome): (r: Reply)
    ensures r == Returned(InvalidConfig) <==> !configIsCorrect
    ensures r.Threw? <==> configIsCorrect && net.Failure?
  {
    if !configIsCorrect then Returned(InvalidConfig)
    else match net
      case Response(_) => Returned("邮件发送成功")
      case Failure(e) => Threw(e)
  }

  /** The HTML body of a mail: every newline becomes `<br>`. */
  function MailHtml(msg: string): (html: string)
    ensures '\n' !in html
  {
    Replace(msg, '\n', "<br>")
  }

  class Smtp {
    const host: PyValue
    const user: PyValue
    const key: PyValue
    const sender: PyValue
    const senderName: PyValue
    const receivers: PyValue
    const configIsCorrect: bool

    predicate Valid()
    {
      configIsCorrect == SmtpConfigOk(host, user, key, sender, receivers)
    }

    constructor (host: PyValue, user: PyValue, key: PyValue, sender: PyValue, senderName: PyValue, receivers: PyValue)
      ensures Valid()
      ensures && this.host == host && this.user == user && this.key == key
              && this.sender == sender && this.senderName == senderName && this.receivers == receivers
    {
      this.host := host;
      this.user := user;
      this.key := key;
      this.sender := sender;
      this.senderName := senderName;
      this.receivers := receivers;
      var ok := SmtpIsCorrectConfig(host, user, key, sender, receivers);
      configIsCorrect := ok;
    }

    /** The mail `sendmail(msg, title)` hands to the server on port 465: none
        for a rejected configuration. */
    function Request(msg: string, title: string): (p: Option<Post>)
      requires Valid()
      ensures p.Some? <==> configIsCorrect
      ensures p.Some? ==> p.value.MailPost? && p.value.port == 465 && '\n' !in p.value.html && p.value.subject == title
    {
      if configIsCorrect then
        Some(MailPost(host.a.s, 465, user.a.s, key.a.s, sender.a.s, senderName, receivers.items, title, MailHtml(msg)))
      else None
    }

    /** `Smtp.sendmail(msg, title)` without attachments. */
    method SendMail(msg: string, title: string, net: NetOutcome) returns (r: Reply, post: Option<Post>)
      requires Valid()
      ensures post == Request(msg, title)
      ensures r == SmtpReply(configIsCorrect, net)
    {
      var html := Replace(msg, '\n', "<br>");
      if !configIsCorrect {
        return Returned(InvalidConfig), None;
      }
      post := Some(MailPost(host.a.s, 465, user.a.s, key.a.s, sender.a.s, senderName, receivers.items, title, html));
      match net
      case Response(_) => r := Returned("邮件发送成功");
      case Failure(e) => r := Threw(e);
    }
  }

  // ---------------------------------------------------------------------
  // Pushplus

  /** What `Pushplus.sendPushplus` answers: status 200 is a success, any
      other status a failure. */
  function PushplusReply(configIsCorrect: bool, net: NetOutcome): (r: Reply)
    ensures r == Returned(InvalidConfig) <==> !configIsCorrect
    ensures r == Returned("发送成功") <==> configIsCorrect && net == Response(200)
    ensures r == Returned("发送失败") <==> configIsCorrect && net.Response? && net.status != 200
    ensures r.Threw? <==> configIsCorrect && net.Failure?
  {
    if !configIsCorrect then Returned(InvalidConfig)
    else match net
      case Response(status) => if status == 200 then Returned("发送成功") else Returned("发送失败")
      case Failure(e) => Threw(e)
  }

  class Pushplus {
    const parameters: PyValue
    const isNew: PyValue

    constructor (parameters: PyValue, isNew: PyValue)
      ensures this.parameters == parameters && this.isNew == isNew
    {
      this.parameters := parameters;
      this.isNew := isNew;
    }

    /** The new API for a truthy `isNew`, the old one otherwise. */
    function Api(): string
    {
      if Truthy(isNew) then "https://www.pushplus.plus/send" else "https://pushplus.hxtrip.com/send"
    }

    /** `Pushplus.isCorrectConfig`: a non-empty string. */
    function ConfigIsCorrect(): (ok: bool)
      ensures ok <==> IsStr(parameters) && parameters.a.s != ""
    {
      if !IsStr(parameters) then false
      else if parameters.a.s == "" then false
      else true
    }

    /** The post `sendPushplus(msg, title)` makes: a query string when the
        parameters contain `=`, the parameters as token otherwise; newlines
        of the message become `</br>`. */
    function Request(msg: string, title: string): (p: Option<Post>)
      ensures p.Some? <==> ConfigIsCorrect()
      ensures p.Some? ==>
                && p.value.PushplusPost? && p.value.api == Api() && p.value.title == title && '\n' !in p.value.content
                && (p.value.params.Query? <==> '=' in parameters.a.s)
    {
      if ConfigIsCorrect() then
        var params := if '=' in parameters.a.s then Query(parameters.a.s) else Token(parameters.a.s);
        Some(PushplusPost(Api(), params, title, Replace(msg, '\n', "</br>")))
      else None
    }

    method SendPushplus(msg: string, title: string, net: NetOutcome) returns (r: Reply, post: Option<Post>)
      ensures post == Request(msg, title)
      ensures r == PushplusReply(ConfigIsCorrect(), net)
    {
      var content := Replace(msg, '\n', "</br>");
      if !ConfigIsCorrect() {
        return Returned(InvalidConfig), None;
      }
      var params := if '=' in parameters.a.s then Query(parameters.a.s) else Token(parameters.a.s);
      post := Some(PushplusPost(Api(), params, title, content));
      match net
      case Response(status) =>
        r := if status == 200 then Returned("发送成功") else Returned("发送失败");
      case Failure(e) => r := Threw(e);
    }
  }

  // ---------------------------------------------------------------------
  // SendMessage

  /** The notification settings: a `dict`, or some other value, which counts
      as an empty `dict`. */
  datatype Config = NotADict | ConfigDict(entries: map<string, PyValue>)

  /** `con.get(name)`. */
  function Get(con: Config, name: string): (v: PyValue)
    ensures con.ConfigDict? && name in con.entries ==> v == con.entries[name]
    ensures !(con.ConfigDict? && name in con.entries) ==> v == Atom(SNone)
  {
    if con.ConfigDict? && name in con.entries then con.entries[name] else Atom(SNone)
  }

  /** The report line of one channel. */
  function ReportLine(channel: string, r: Reply): string
  {
    match r
    case Returned(text) => "\n" + channel + "|" + text
    case Threw(e) => "\n" + channel + "|出错|" + e
  }

  class SendMessage {
    const qmsg: Qmsg
    const smtp: Smtp
    const pp: Pushplus
    var logStr: string
    /** The requests handed to the network, in order. */
    ghost var sent: seq<Post>

    predicate Valid()
    {
      smtp.Valid()
    }

    constructor (con: Config)
      ensures Valid()
      ensures && qmsg.key == Get(con, "qmsg_key") && qmsg.qq == Get(con, "qmsg_qq")
              && qmsg.isGroup == Get(con, "qmsg_isGroup")
      ensures && smtp.host == Get(con, "smtp_host") && smtp.user == Get(con, "smtp_user")
              && smtp.key == Get(con, "smtp_key") && smtp.sender == Get(con, "smtp_sender")
              && smtp.senderName == Get(con, "smtp_senderName")
              && smtp.receivers == Get(con, "smtp_receivers")
      ensures pp.parameters == Get(con, "pushplus_parameters") && pp.isNew == Get(con, "pushplus_isNew")
      ensures logStr == "推送情况\n" && sent == []
    {
      qmsg := new Qmsg(Get(con, "qmsg_key"), Get(con, "qmsg_qq"), Get(con, "qmsg_isGroup"));
      smtp := new Smtp(Get(con, "smtp_host"), Get(con, "smtp_user"), Get(con, "smtp_key"),
                       Get(con, "smtp_sender"), Get(con, "smtp_senderName"), Get(con, "smtp_receivers"));
      pp := new Pushplus(Get(con, "pushplus_parameters"), Get(con, "pushplus_isNew"));
      logStr := "推送情况\n";
      sent := [];
    }

    /** `SendMessage.send(msg, title)`: every channel is tried in turn, and an
        exception in one is written to the report instead of stopping the
        others. */
    method Send(msg: string, title: string, qmsgNet: NetOutcome, smtpNet: NetOutcome, ppNet: NetOutcome)
      requires Valid()
      modifies this`logStr, this`sent
      ensures logStr == old(logStr)
                        + ReportLine("QMSG酱", QmsgReply(qmsg.ConfigIsCorrect(), qmsgNet))
                        + ReportLine("SMTP", SmtpReply(smtp.configIsCorrect, smtpNet))
                        + ReportLine("Pushplus", PushplusReply(pp.ConfigIsCorrect(), ppNet))
      ensures sent == old(sent) + AsSeq(qmsg.Request(msg)) + AsSeq(smtp.Request(msg, title))
                                + AsSeq(pp.Request(msg, title))
    {
      var r, post := qmsg.Send(msg, qmsgNet);
      logStr := logStr + ReportLine("QMSG酱", r);
      sent := sent + AsSeq(post);
      r, post := smtp.SendMail(msg, title, smtpNet);
      logStr := logStr + ReportLine("SMTP", r);
      sent := sent + AsSeq(post);
      r, post := pp.SendPushplus(msg, title, ppNet);
      logStr := logStr + ReportLine("Pushplus", r);
      sent := sent + AsSeq(post);
    }
  }
}
