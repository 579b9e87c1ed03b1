/** A response body read in pieces: the payloads it hands on do not depend on where the pieces end. */
module SseCapture {
  predicate Space(c: char) { c == ' ' || c == '\t' || c == '\n' || c == '\r' || c == '\U{0B}' || c == '\U{0C}' }

  function TrimLeft(s: string): string { if s != "" && Space(s[0]) then TrimLeft(s[1..]) else s }
  function TrimRight(s: string): string { if s != "" && Space(s[|s| - 1]) then TrimRight(s[..|s| - 1]) else s }
  function Trim(s: string): string { TrimRight(TrimLeft(s)) }

  lemma {:induction false} TrimLeftMeans(s: string) returns (a: string)
    ensures s == a + TrimLeft(s) && Blank(a) && (TrimLeft(s) != "" ==> !Space(TrimLeft(s)[0]))
  {
    if s != "" && Space(s[0]) {
      var b := TrimLeftMeans(s[1..]);
      a := [s[0]] + b;
      assert s == [s[0]] + s[1..];
    } else {
      a := "";
    }
  }

  lemma {:induction false} TrimRightMeans(s: string) returns (b: string)
    ensures s == TrimRight(s) + b && Blank(b) && (TrimRight(s) != "" ==> !Space(TrimRight(s)[|TrimRight(s)| - 1]))
  {
    if s != "" && Space(s[|s| - 1]) {
      var a := TrimRightMeans(s[..|s| - 1]);
      b := a + [s[|s| - 1]];
      assert s == s[..|s| - 1] + [s[|s| - 1]];
    } else {
      b := "";
    }
  }

  /** Trimming takes the white space off both ends, and nothing else. */
  lemma TrimMeans(s: string) returns (a: string, b: string)
    ensures s == a + Trim(s) + b && Blank(a) && Blank(b)
    ensures Trim(s) != "" ==> !Space(Trim(s)[0]) && !Space(Trim(s)[|Trim(s)| - 1])
  {
    a := TrimLeftMeans(s);
    b := TrimRightMeans(TrimLeft(s));
    if Trim(s) != "" { assert TrimLeft(s)[0] == Trim(s)[0]; }
  }

  predicate Blank(s: string) { forall i :: 0 <= i < |s| ==> Space(s[i]) }

  function DropLineEnd(s: string): string {
    if s != "" && (s[|s| - 1] == '\r' || s[|s| - 1] == '\n') then DropLineEnd(s[..|s| - 1]) else s
  }

  /** The place of the first c, or |s|. */
  function IndexOf(s: string, c: char): (i: nat)
    ensures i <= |s| && (i < |s| ==> s[i] == c) && (forall j :: 0 <= j < i ==> s[j] != c)
    ensures i == |s| <==> c !in s
  {
    if s == "" then 0 else if s[0] == c then 0 else 1 + IndexOf(s[1..], c)
  }

  // ---- the parser, one byte at a time ----

  /** events are the payloads handed on so far. */
  datatype Parser = Parser(pending: string, event: string, name: string, resumable: bool, events: seq<string>)

  const START := Parser("", "", "", false, [])

  function Dispatch(p: Parser): Parser {
    p.(events := if p.event != "" && (p.name == "" || p.name == "message") then p.events + [p.event] else p.events,
       event := "", name := "")
  }

  function Line(p: Parser, raw: string): Parser {
    var line := DropLineEnd(raw);
    var cut := IndexOf(line, ':');
    if line == "" then Dispatch(p)
    else if cut == |line| then p
    else
      var field, value := line[..cut], line[cut + 1..];
      if field == "id" then p.(resumable := p.resumable || Trim(value) != "")
      else if field == "event" then p.(name := Trim(value))
      else if field == "data" then p.(event := (if p.event == "" then "" else p.event + "\n") + Trim(value))
      else p
  }

  function Byte(p: Parser, c: char): Parser {
    if c == '\n' then Line(p.(pending := ""), p.pending) else p.(pending := p.pending + [c])
  }

  function Consume(p: Parser, bytes: string): Parser {
    if bytes == "" then p else Byte(Consume(p, bytes[..|bytes| - 1]), bytes[|bytes| - 1])
  }

  /** The end of the stream hands on the last event. */
  function Finish(p: Parser): Parser {
    Dispatch(if p.pending == "" then p else Line(p.(pending := ""), p.pending))
  }

  lemma {:induction false} ConsumeConcat(p: Parser, a: string, b: string)
    ensures Consume(p, a + b) == Consume(Consume(p, a), b)
  {
    if b == "" {
      assert a + b == a;
    } else {
      ConsumeConcat(p, a, b[..|b| - 1]);
      assert (a + b)[..|a + b| - 1] == a + b[..|b| - 1];
    }
  }

  lemma {:induction false} ConsumePlain(p: Parser, s: string)
    requires '\n' !in s
    ensures Consume(p, s) == p.(pending := p.pending + s)
  {
    if s != "" {
      ConsumePlain(p, s[..|s| - 1]);
      assert s == s[..|s| - 1] + [s[|s| - 1]];
    } else {
      assert p.pending + s == p.pending;
    }
  }

  // ---- the body as it is read ----

  datatype End = More | Eof | Failed

  class ResponseBody {
    const sse: bool
    const valid: string -> bool   // whether a text is one JSON value
    var pending: string
    var event: string
    var eventName: string
    var captured: bool
    var resumable: bool
    var events: seq<string>

    function View(): Parser
      reads this
    {
      Parser(pending, event, eventName, resumable, events)
    }

    ghost predicate Valid()
      reads this
    {
      sse ==> '\n' !in pending
    }

    constructor (sse: bool, capture: bool, valid: string -> bool)
      ensures Valid() && View() == START && this.sse == sse && this.valid == valid && captured == !capture
    {
      this.sse, this.valid := sse, valid;
      pending, event, eventName := "", "", "";
      captured, resumable, events := !capture, false, [];
    }

    method DispatchEvent()
      modifies this`event, this`eventName, this`events
      ensures View() == Dispatch(old(View()))
    {
      if event != "" && (eventName == "" || eventName == "message") {
        events := events + [event];
      }
      event, eventName := "", "";
    }

    method TakeLine(raw: string)
      modifies this`event, this`eventName, this`events, this`resumable
      ensures View() == Line(old(View()), raw)
    {
      var line := DropLineEnd(raw);
      if line == "" {
        DispatchEvent();
        return;
      }
      var cut := IndexOf(line, ':');
      if cut == |line| {
        return;
      }
      var field, value := line[..cut], line[cut + 1..];
      if field == "id" {
        if Trim(value) != "" {
          resumable := true;
        }
      } else if field == "event" {
        eventName := Trim(value);
      } else if field == "data" {
        if event != "" {
          event := event + "\n";
        }
        event := event + Trim(value);
      }
    }

    /** Every complete line that is there. */
    method TakeLines()
      modifies this`pending, this`event, this`eventName, this`events, this`resumable
      ensures '\n' !in pending && View() == Settled(old(View()))
    {
      ghost var target := Settled(View());
      while '\n' in pending
        invariant Settled(View()) == target
        decreases |pending|
      {
        var cut := IndexOf(pending, '\n');
        SettledLine(View(), cut);
        var raw := pending[..cut];
        pending := pending[cut + 1..];
        TakeLine(raw);
      }
      SettledPlain(View());
    }

    method TakeEnd()
      modifies this`pending, this`event, this`eventName, this`events, this`resumable
      ensures View() == Finish(old(View())) && pending == ""
    {
      if pending != "" {
        var raw := pending;
        pending := "";
        TakeLine(raw);
      }
      DispatchEvent();
    }

    method Feed(bytes: string)
      requires '\n' !in pending
      modifies this`pending, this`event, this`eventName, this`events, this`resumable
      ensures '\n' !in pending && View() == Consume(old(View()), bytes)
    {
      SettledFeed(View(), bytes);
      pending := pending + bytes;
      TakeLines();
    }

    /** One read that brought `bytes`, and perhaps the end. A failed read brings no end of stream. */
    method Read(bytes: string, end: End)
      requires Valid()
      modifies this
      ensures Valid() && captured == After(old(captured), old(View()), sse, valid, bytes, end).0
      ensures View() == After(old(captured), old(View()), sse, valid, bytes, end).1
    {
      if captured {
        return;
      }
      if sse {
        Feed(bytes);
        if end == Eof {
          TakeEnd();
          captured := true;
        }
        return;
      }
      pending := pending + bytes;
      if valid(pending) || end == Eof {
        events := events + [pending];
        pending := "";
        captured := true;
      }
    }
  }

  /** A read, byte by byte. */
  function After(captured: bool, p: Parser, sse: bool, valid: string -> bool, bytes: string, end: End): (bool, Parser) {
    if captured then (true, p)
    else if sse then if end == Eof then (true, Finish(Consume(p, bytes))) else (false, Consume(p, bytes))
    else
      var whole := p.pending + bytes;
      if valid(whole) || end == Eof then (true, p.(events := p.events + [whole], pending := ""))
      else (false, p.(pending := whole))
  }

  /** The parser once the bytes still pending are consumed as well. */
  function Settled(p: Parser): Parser { Consume(p.(pending := ""), p.pending) }

  lemma SettledPlain(p: Parser)
    requires '\n' !in p.pending
    ensures Settled(p) == p
  {
    ConsumePlain(p.(pending := ""), p.pending);
    assert "" + p.pending == p.pending;
  }

  lemma SettledFeed(p: Parser, bytes: string)
    requires '\n' !in p.pending
    ensures Settled(p.(pending := p.pending + bytes)) == Consume(p, bytes)
  {
    SettledPlain(p);
    ConsumeConcat(p.(pending := ""), p.pending, bytes);
  }

  lemma SettledLine(p: Parser, cut: nat)
    requires cut < |p.pending| && p.pending[cut] == '\n' && '\n' !in p.pending[..cut]
    ensures Settled(Line(p.(pending := p.pending[cut + 1..]), p.pending[..cut])) == Settled(p)
  {
    LineByLine(p.(pending := ""), p.pending, cut);
    LineKeepsPending(p, p.pending[cut + 1..], p.pending[..cut]);
  }

  lemma LineKeepsPending(p: Parser, pending: string, raw: string)
    ensures Line(p.(pending := pending), raw) == Line(p.(pending := ""), raw).(pending := pending)
  {
  }

  lemma LineByLine(p: Parser, s: string, cut: nat)
    requires p.pending == "" && cut < |s| && s[cut] == '\n' && '\n' !in s[..cut]
    ensures Consume(p, s) == Consume(Line(p, s[..cut]), s[cut + 1..])
  {
    var head := s[..cut + 1];
    assert s == head + s[cut + 1..];
    ConsumeConcat(p, head, s[cut + 1..]);
    ConsumeLine(p, head);
    assert head[..cut] == s[..cut];
  }

  lemma ConsumeLine(p: Parser, head: string)
    requires p.pending == "" && head != "" && head[|head| - 1] == '\n' && '\n' !in head[..|head| - 1]
    ensures Consume(p, head) == Line(p, head[..|head| - 1])
  {
    var text := head[..|head| - 1];
    ConsumePlain(p, text);
    assert p.pending + text == text;
    assert Consume(p, text).(pending := "") == p;
  }

  // ---- pieces ----

  function Concat(pieces: seq<string>): string {
    if pieces == [] then "" else Concat(pieces[..|pieces| - 1]) + pieces[|pieces| - 1]
  }

  /** The reads so far, none of them the last. */
  function ReadSome(sse: bool, valid: string -> bool, pieces: seq<string>): (bool, Parser) {
    if pieces == [] then (false, START)
    else
      var (captured, p) := ReadSome(sse, valid, pieces[..|pieces| - 1]);
      After(captured, p, sse, valid, pieces[|pieces| - 1], More)
  }

  /** A whole body: the end of the stream comes with the last piece, which may be empty. */
  function ReadBody(sse: bool, valid: string -> bool, pieces: seq<string>, last: string): Parser {
    var (captured, p) := ReadSome(sse, valid, pieces);
    After(captured, p, sse, valid, last, Eof).1
  }

  lemma {:induction false} SomeIsConsumed(valid: string -> bool, pieces: seq<string>)
    ensures ReadSome(true, valid, pieces) == (false, Consume(START, Concat(pieces)))
  {
    if pieces != [] {
      SomeIsConsumed(valid, pieces[..|pieces| - 1]);
      ConsumeConcat(START, Concat(pieces[..|pieces| - 1]), pieces[|pieces| - 1]);
    }
  }

  /** An event stream read in any pieces ends as if read byte by byte. */
  lemma StreamIsPieceFree(valid: string -> bool, pieces: seq<string>, last: string)
    ensures ReadBody(true, valid, pieces, last) == Finish(Consume(START, Concat(pieces) + last))
  {
    SomeIsConsumed(valid, pieces);
    ConsumeConcat(START, Concat(pieces), last);
  }

  /** However the body is cut up, one payload is handed on and means what the text means. */
  ghost predicate MeansAlike<T(!new)>(valid: string -> bool, means: string -> T, text: string) {
    forall pieces, last {:trigger ReadBody(false, valid, pieces, last)} ::
      Concat(pieces) + last == text
      ==> var events := ReadBody(false, valid, pieces, last).events; |events| == 1 && means(events[0]) == means(text)
  }

  /** Every beginning that is a value by itself means what the text means. */
  ghost predicate BeginsAlike<T(!new)>(valid: string -> bool, means: string -> T, text: string) {
    forall k :: 0 <= k < |text| && valid(text[..k]) ==> means(text[..k]) == means(text)
  }

  /** The meaning of a JSON body is the same in every way of cutting it up exactly when no beginning of
      it is a JSON value of another meaning. */
  lemma JsonMeansAlikeExactly<T(!new)>(valid: string -> bool, means: string -> T, text: string)
    ensures MeansAlike(valid, means, text) <==> BeginsAlike(valid, means, text)
  {
    if BeginsAlike(valid, means, text) {
      forall pieces, last | Concat(pieces) + last == text
        ensures var events := ReadBody(false, valid, pieces, last).events;
                |events| == 1 && means(events[0]) == means(text)
      {
        JsonSoFar(valid, text, pieces, last);
        assert text[..|text|] == text;
      }
    } else {
      var k :| 0 <= k < |text| && valid(text[..k]) && means(text[..k]) != means(text);
      JsonCut(valid, text, k);
    }
  }

  ghost predicate NoShorterValue(valid: string -> bool, text: string) {
    forall k :: 0 <= k < |text| ==> !valid(text[..k])
  }

  ghost predicate PieceFree(valid: string -> bool, text: string) {
    forall pieces, last {:trigger ReadBody(false, valid, pieces, last)} ::
      Concat(pieces) + last == text ==> ReadBody(false, valid, pieces, last).events == [text]
  }

  /** A JSON body is handed on once, whole, in every way of cutting it up exactly when no shorter
      beginning of it is a JSON value by itself. */
  lemma JsonPieceFreeExactly(valid: string -> bool, text: string)
    ensures PieceFree(valid, text) <==> NoShorterValue(valid, text)
  {
    var itself := (s: string) => s;
    JsonMeansAlikeExactly(valid, itself, text);
    assert PieceFree(valid, text) ==> MeansAlike(valid, itself, text);
    assert forall k :: 0 <= k < |text| ==> itself(text[..k]) != itself(text) by {
      forall k | 0 <= k < |text| ensures itself(text[..k]) != itself(text) { assert |text[..k]| == k; }
    }
  }

  /** Cut where a shorter value ends, the body is handed on short. */
  lemma JsonCut(valid: string -> bool, text: string, k: nat)
    requires k < |text| && valid(text[..k])
    ensures Concat([text[..k]]) + text[k..] == text
    ensures ReadBody(false, valid, [text[..k]], text[k..]).events == [text[..k]]
  {
    var head := text[..k];
    OnePiece(valid, head);
    assert head + text[k..] == text;
  }

  lemma OnePiece(valid: string -> bool, head: string)
    requires valid(head)
    ensures Concat([head]) == head
    ensures ReadSome(false, valid, [head]) == (true, START.(events := [head]))
  {
    var pieces, none := [head], [];
    assert pieces[..|pieces| - 1] == none;
    assert "" + head == head;
    assert Concat(none) == "" && Concat(pieces) == Concat(none) + head;
    assert ReadSome(false, valid, none) == (false, START);
    assert START.pending + head == head && START.events + [head] == [head];
    assert After(false, START, false, valid, head, More) == (true, START.(events := [head]));
    assert ReadSome(false, valid, pieces) == After(false, START, false, valid, head, More);
  }

  /** What has been handed on is a valid beginning, or the text itself. */
  lemma {:induction false} JsonSoFar(valid: string -> bool, text: string, pieces: seq<string>, rest: string)
    requires Concat(pieces) + rest == text
    ensures var (captured, p) := ReadSome(false, valid, pieces);
            if captured then exists k :: 0 <= k <= |text| && valid(text[..k]) && p.events == [text[..k]]
            else p.events == [] && p.pending == Concat(pieces)
  {
    if pieces != [] {
      var front, piece := pieces[..|pieces| - 1], pieces[|pieces| - 1];
      assert Concat(front) + (piece + rest) == text;
      JsonSoFar(valid, text, front, piece + rest);
      var so := Concat(pieces);
      assert text[..|so|] == so;
    }
  }

  // ---- a JSON object ends at one place ----

  predicate Opens(c: char) { c == '{' || c == '[' }
  predicate Closes(c: char) { c == '}' || c == ']' }

  /** A text of brackets that pair up, strings, and other characters. */
  datatype Nest = Plain(c: char) | Quoted(body: string) | Group(open: char, inner: seq<Nest>, close: char)

  /** The inside of a string: a backslash takes the next character with it. */
  predicate Escaped(body: string) {
    body == "" || (body[0] == '\\' && |body| > 1 && Escaped(body[2..]))
    || (body[0] != '\\' && body[0] != '"' && Escaped(body[1..]))
  }

  predicate Paired(n: Nest) {
    match n
    case Plain(c) => !Opens(c) && !Closes(c) && c != '"'
    case Quoted(body) => Escaped(body)
    case Group(open, inner, close) => Opens(open) && Closes(close) && forall i :: 0 <= i < |inner| ==> Paired(inner[i])
  }

  function Written(n: Nest): string
    decreases n, 1, 0
  {
    match n
    case Plain(c) => [c]
    case Quoted(body) => "\"" + body + "\""
    case Group(open, inner, close) => [open] + WrittenFrom(n, 0) + [close]
  }

  function WrittenFrom(n: Nest, i: nat): string
    requires n.Group? && i <= |n.inner|
    decreases n, 0, |n.inner| - i
  {
    if i == |n.inner| then "" else Written(n.inner[i]) + WrittenFrom(n, i + 1)
  }

  /** An object with white space around it. */
  ghost predicate ObjectText(s: string, a: string, n: Nest, b: string) {
    Blank(a) && n.Group? && Paired(n) && Blank(b) && s == a + Written(n) + b
  }

  predicate Object(s: string) { TrimLeft(s) != "" && TrimLeft(s)[0] == '{' }

  /** What the syntax of JSON says of an object: its brackets pair up and its strings are quoted. White space is
      no value. */
  ghost predicate JsonLike(valid: string -> bool) {
    forall s :: valid(s) ==> !Blank(s) && (Object(s) ==> exists a, n, b :: ObjectText(s, a, n, b))
  }

  lemma Cancel(a: string, b: string, x: string, y: string)
    requires a + x == b + y && |a| == |b|
    ensures a == b && x == y
  {
    assert (a + x)[..|a|] == a && (b + y)[..|b|] == b;
    assert (a + x)[|a|..] == x && (b + y)[|b|..] == y;
  }

  /** A string ends at one place. */
  lemma {:induction false} SameBody(a: string, b: string, x: string, y: string)
    requires Escaped(a) && Escaped(b) && a + "\"" + x == b + "\"" + y
    ensures a == b
    decreases |a|
  {
    var s, t := a + "\"" + x, b + "\"" + y;
    assert s[0] == t[0];
    if a != "" && b != "" {
      var k := if a[0] == '\\' then 2 else 1;
      assert s[k..] == a[k..] + "\"" + x && t[k..] == b[k..] + "\"" + y;
      SameBody(a[k..], b[k..], x, y);
      assert s[..k] == a[..k] && t[..k] == b[..k];
      assert a == a[..k] + a[k..] && b == b[..k] + b[k..];
    }
  }

  /** So does a nest, whatever follows it. */
  lemma {:induction false} SameNest(n: Nest, m: Nest, x: string, y: string)
    requires Paired(n) && Paired(m) && Written(n) + x == Written(m) + y
    ensures Written(n) == Written(m) && x == y
    decreases n, 1, 0
  {
    assert Written(n)[0] == (Written(n) + x)[0] && Written(m)[0] == (Written(m) + y)[0];
    if n.Quoted? {
      assert (Written(n) + x)[1..] == n.body + "\"" + x && (Written(m) + y)[1..] == m.body + "\"" + y;
      SameBody(n.body, m.body, x, y);
    } else if n.Group? {
      assert (Written(n) + x)[1..] == WrittenFrom(n, 0) + ([n.close] + x);
      assert (Written(m) + y)[1..] == WrittenFrom(m, 0) + ([m.close] + y);
      SameInner(n, m, 0, 0, x, y);
    }
    Cancel(Written(n), Written(m), x, y);
  }

  lemma {:induction false} SameInner(n: Nest, m: Nest, i: nat, j: nat, x: string, y: string)
    requires n.Group? && m.Group? && Paired(n) && Paired(m) && i <= |n.inner| && j <= |m.inner|
    requires WrittenFrom(n, i) + ([n.close] + x) == WrittenFrom(m, j) + ([m.close] + y)
    ensures WrittenFrom(n, i) == WrittenFrom(m, j) && n.close == m.close
    decreases n, 0, |n.inner| - i
  {
    var s, t := WrittenFrom(n, i) + ([n.close] + x), WrittenFrom(m, j) + ([m.close] + y);
    assert s[0] == t[0];
    if i < |n.inner| { assert s[0] == Written(n.inner[i])[0] && !Closes(s[0]); } else { assert s[0] == n.close; }
    if j < |m.inner| { assert t[0] == Written(m.inner[j])[0] && !Closes(t[0]); } else { assert t[0] == m.close; }
    if i < |n.inner| {
      var u, v := WrittenFrom(n, i + 1) + ([n.close] + x), WrittenFrom(m, j + 1) + ([m.close] + y);
      assert s == Written(n.inner[i]) + u && t == Written(m.inner[j]) + v;
      SameNest(n.inner[i], m.inner[j], u, v);
      SameInner(n, m, i + 1, j + 1, x, y);
    }
  }

  lemma {:induction false} TrimRightBlank(a: string, b: string)
    requires Blank(b)
    ensures TrimRight(a + b) == TrimRight(a)
  {
    if b == "" {
      assert a + b == a;
    } else {
      assert (a + b)[..|a + b| - 1] == a + b[..|b| - 1];
      TrimRightBlank(a, b[..|b| - 1]);
    }
  }

  lemma {:induction false} TrimLeftBegins(s: string, k: nat)
    requires k <= |s| && !Blank(s[..k])
    ensures TrimLeft(s) != "" && TrimLeft(s[..k]) != "" && TrimLeft(s)[0] == TrimLeft(s[..k])[0]
  {
    if Space(s[0]) {
      assert s[..k][1..] == s[1..][..k - 1];
      TrimLeftBegins(s[1..], k - 1);
    }
  }

  /** Two objects in one text, of which one is a beginning of the other, are one object. */
  lemma SameObject(a: string, n: Nest, x: string, b: string, m: Nest, y: string)
    requires Blank(a) && Blank(b) && n.Group? && m.Group? && Paired(n) && Paired(m)
    requires a + Written(n) + x == b + Written(m) + y
    ensures a == b && Written(n) == Written(m)
  {
    var s, t := a + Written(n) + x, b + Written(m) + y;
    assert s[|a|] == Written(n)[0] && t[|b|] == Written(m)[0];
    assert s == a + (Written(n) + x) && t == b + (Written(m) + y);
    Cancel(a, b, Written(n) + x, Written(m) + y);
    SameNest(n, m, x, y);
  }

  /** A beginning that is a value ends where the object does. */
  lemma BeginningIsObject(valid: string -> bool, text: string, k: nat)
    requires JsonLike(valid) && valid(text) && Object(text) && k <= |text| && valid(text[..k])
    ensures TrimRight(text[..k]) == TrimRight(text)
  {
    var head := text[..k];
    TrimLeftBegins(text, k);
    var a, n, x :| ObjectText(head, a, n, x);
    var b, m, y :| ObjectText(text, b, m, y);
    assert text == head + text[k..];
    assert a + Written(n) + (x + text[k..]) == text;
    SameObject(a, n, x + text[k..], b, m, y);
    TrimRightBlank(a + Written(n), x);
    TrimRightBlank(b + Written(m), y);
  }

  /** A response is a JSON object, and what is handed on is that object in every way of cutting the body
      up; only the white space behind it may be missing. */
  lemma ObjectIsPieceFree(valid: string -> bool, text: string)
    requires JsonLike(valid) && valid(text) && Object(text)
    ensures MeansAlike(valid, TrimRight, text)
  {
    forall k | 0 <= k < |text| && valid(text[..k]) ensures TrimRight(text[..k]) == TrimRight(text) {
      BeginningIsObject(valid, text, k);
    }
    JsonMeansAlikeExactly(valid, TrimRight, text);
  }

  // ---- what a stream of events says ----

  /** One event as it is written: the lines a reader of schemas ignores, its name, its id and its payload. */
  datatype Event = Event(noise: seq<string>, name: string, id: string, lines: seq<string>)

  function LineEnd(cr: bool): string { if cr then "\r\n" else "\n" }

  /** Lines, each with something before it. */
  function Lines(start: string, lines: seq<string>, cr: bool): string {
    if lines == [] then "" else Lines(start, lines[..|lines| - 1], cr) + (start + lines[|lines| - 1] + LineEnd(cr))
  }

  function Fields(e: Event, cr: bool): string {
    Lines("", e.noise, cr) + Lines("event: ", if e.name == "" then [] else [e.name], cr)
    + Lines("id: ", if e.id == "" then [] else [e.id], cr) + Lines("data: ", e.lines, cr)
  }

  /** Each event ends with a blank line. */
  function Stream(events: seq<Event>, cr: bool): string {
    if events == [] then ""
    else Stream(events[..|events| - 1], cr) + (Fields(events[|events| - 1], cr) + LineEnd(cr))
  }

  function Join(lines: seq<string>): string {
    if lines == [] then ""
    else if |lines| == 1 then lines[0]
    else Join(lines[..|lines| - 1]) + "\n" + lines[|lines| - 1]
  }

  /** A value that loses nothing: not empty, no space around it, no line end in it. */
  predicate Clean(v: string) {
    v != "" && !Space(v[0]) && !Space(v[|v| - 1]) && '\n' !in v
  }

  /** A comment, or a field of another name. */
  predicate Ignored(line: string) {
    && line != "" && '\n' !in line && line[|line| - 1] != '\r'
    && !("id:" <= line) && !("event:" <= line) && !("data:" <= line)
  }

  predicate Sendable(e: Event) {
    && (e.name == "" || Clean(e.name)) && (e.id == "" || Clean(e.id))
    && (forall i :: 0 <= i < |e.lines| ==> Clean(e.lines[i]))
    && (forall i :: 0 <= i < |e.noise| ==> Ignored(e.noise[i]))
  }

  /** Events without a payload, and those of another name than "message", say nothing. */
  predicate Told(e: Event) { e.lines != [] && (e.name == "" || e.name == "message") }

  /** The payloads of the events that say something, in order. */
  function Heard(events: seq<Event>): seq<string> {
    if events == [] then []
    else
      var e := events[|events| - 1];
      Heard(events[..|events| - 1]) + if Told(e) then [Join(e.lines)] else []
  }

  lemma TrimValue(v: string)
    requires Clean(v)
    ensures Trim(" " + v) == v
  {
    assert (" " + v)[1..] == v;
    assert TrimLeft(v) == v && TrimLeft(" " + v) == v;
  }

  lemma RawLine(p: Parser, body: string, cr: bool)
    requires p.pending == "" && '\n' !in body && (body != "" ==> body[|body| - 1] != '\r')
    ensures Consume(p, body + LineEnd(cr)) == Line(p, body)
  {
    var raw := if cr then body + "\r" else body;
    assert body + LineEnd(cr) == raw + "\n";
    ConsumeLine(p, raw + "\n");
    assert (raw + "\n")[..|raw|] == raw;
    if cr { assert raw[..|raw| - 1] == body && DropLineEnd(raw) == DropLineEnd(body); }
  }

  /** The first colon is the one behind the key. */
  lemma FieldCut(key: string, v: string)
    requires ':' !in key
    ensures var line := key + ": " + v;
            IndexOf(line, ':') == |key| && line[..|key|] == key && line[|key| + 1..] == " " + v
  {
    var line := key + ": " + v;
    assert line[|key|] == ':' && forall j :: 0 <= j < |key| ==> line[j] == key[j];
  }

  lemma LineOfField(p: Parser, key: string, v: string)
    requires Clean(v) && ':' !in key
    ensures Line(p, key + ": " + v)
         == if key == "id" then p.(resumable := true)
            else if key == "event" then p.(name := v)
            else if key == "data" then p.(event := (if p.event == "" then "" else p.event + "\n") + v)
            else p
  {
    var line := key + ": " + v;
    assert line[|line| - 1] == v[|v| - 1];
    assert DropLineEnd(line) == line;
    FieldCut(key, v);
    TrimValue(v);
  }

  lemma FieldLine(p: Parser, key: string, v: string, cr: bool)
    requires p.pending == "" && Clean(v) && (key == "id" || key == "event" || key == "data")
    ensures Consume(p, key + ": " + v + LineEnd(cr))
         == if key == "id" then p.(resumable := true)
            else if key == "event" then p.(name := v)
            else p.(event := (if p.event == "" then "" else p.event + "\n") + v)
  {
    var line := key + ": " + v;
    assert line[|line| - 1] == v[|v| - 1];
    RawLine(p, line, cr);
    LineOfField(p, key, v);
  }

  lemma NoiseLine(p: Parser, line: string, cr: bool)
    requires p.pending == "" && Ignored(line)
    ensures Consume(p, line + LineEnd(cr)) == p
  {
    RawLine(p, line, cr);
    LineOfNoise(p, line);
  }

  lemma LineOfNoise(p: Parser, line: string)
    requires Ignored(line)
    ensures Line(p, line) == p
  {
    assert DropLineEnd(line) == line;
    var cut := IndexOf(line, ':');
    if cut < |line| {
      assert line[..cut + 1] == line[..cut] + ":";
      assert line[..cut] + ":" <= line;
    }
  }

  lemma {:induction false} NoiseIsIgnored(p: Parser, noise: seq<string>, cr: bool)
    requires p.pending == "" && forall i :: 0 <= i < |noise| ==> Ignored(noise[i])
    ensures Consume(p, Lines("", noise, cr)) == p
  {
    if noise != [] {
      var n := |noise| - 1;
      NoiseIsIgnored(p, noise[..n], cr);
      assert "" + noise[n] == noise[n];
      ConsumeConcat(p, Lines("", noise[..n], cr), "" + noise[n] + LineEnd(cr));
      NoiseLine(p, noise[n], cr);
    }
  }

  lemma {:induction false} DataFills(p: Parser, lines: seq<string>, cr: bool)
    requires p.pending == "" && p.event == "" && forall i :: 0 <= i < |lines| ==> Clean(lines[i])
    ensures Consume(p, Lines("data: ", lines, cr)) == p.(event := Join(lines)) && (lines != [] ==> Join(lines) != "")
  {
    if lines != [] {
      var n := |lines| - 1;
      DataFills(p, lines[..n], cr);
      ConsumeConcat(p, Lines("data: ", lines[..n], cr), "data: " + lines[n] + LineEnd(cr));
      DataLine(p.(event := Join(lines[..n])), lines[n], cr);
      assert n == 0 ==> "" + lines[0] == lines[0];
    }
  }

  lemma DataLine(p: Parser, v: string, cr: bool)
    requires p.pending == "" && Clean(v)
    ensures Consume(p, "data: " + v + LineEnd(cr)) == p.(event := (if p.event == "" then "" else p.event + "\n") + v)
  {
    assert "data" + ": " == "data: ";
    FieldLine(p, "data", v, cr);
  }

  lemma OneField(p: Parser, key: string, v: string, cr: bool)
    requires p.pending == "" && (v == "" || Clean(v)) && ((key == "event" && p.name == "") || key == "id")
    ensures Consume(p, Lines(key + ": ", if v == "" then [] else [v], cr))
         == if key == "id" then p.(resumable := p.resumable || v != "") else p.(name := v)
  {
    if v != "" {
      FieldLine(p, key, v, cr);
      assert [v][..0] == [];
      assert Lines(key + ": ", [v], cr) == "" + (key + ": " + v + LineEnd(cr)) == key + ": " + v + LineEnd(cr);
    }
  }

  predicate Idle(p: Parser) { p.pending == "" && p.event == "" && p.name == "" }

  lemma FieldsFill(p: Parser, e: Event, cr: bool)
    requires Idle(p) && Sendable(e)
    ensures Consume(p, Fields(e, cr))
         == p.(event := Join(e.lines), name := e.name, resumable := p.resumable || e.id != "")
    ensures e.lines != [] ==> Join(e.lines) != ""
  {
    var noise, data := Lines("", e.noise, cr), Lines("data: ", e.lines, cr);
    var name := Lines("event: ", if e.name == "" then [] else [e.name], cr);
    var id := Lines("id: ", if e.id == "" then [] else [e.id], cr);
    NoiseIsIgnored(p, e.noise, cr);
    OneField(p, "event", e.name, cr);
    assert "event" + ": " == "event: " && "id" + ": " == "id: ";
    var q := p.(name := e.name);
    OneField(q, "id", e.id, cr);
    var r := q.(resumable := p.resumable || e.id != "");
    DataFills(r, e.lines, cr);
    ConsumeConcat(p, noise, name);
    ConsumeConcat(p, noise + name, id);
    ConsumeConcat(p, noise + name + id, data);
  }

  lemma OneEvent(p: Parser, e: Event, cr: bool)
    requires Idle(p) && Sendable(e)
    ensures Consume(p, Fields(e, cr) + LineEnd(cr))
         == p.(events := p.events + if Told(e) then [Join(e.lines)] else [], resumable := p.resumable || e.id != "")
  {
    FieldsFill(p, e, cr);
    ConsumeConcat(p, Fields(e, cr), LineEnd(cr));
    var q := Consume(p, Fields(e, cr));
    RawLine(q, "", cr);
    assert "" + LineEnd(cr) == LineEnd(cr);
    assert p.events + [] == p.events;
  }

  ghost predicate Resumes(events: seq<Event>) { exists i :: 0 <= i < |events| && events[i].id != "" }

  lemma {:induction false} StreamConsumed(events: seq<Event>, cr: bool)
    requires forall i :: 0 <= i < |events| ==> Sendable(events[i])
    ensures var p := Consume(START, Stream(events, cr));
            Idle(p) && p.events == Heard(events) && (p.resumable <==> Resumes(events))
  {
    if events != [] {
      var n := |events| - 1;
      StreamConsumed(events[..n], cr);
      ConsumeConcat(START, Stream(events[..n], cr), Fields(events[n], cr) + LineEnd(cr));
      OneEvent(Consume(START, Stream(events[..n], cr)), events[n], cr);
      ResumesMore(events);
      assert Heard(events[..n]) + [] == Heard(events[..n]);
    }
  }

  lemma ResumesMore(events: seq<Event>)
    requires events != []
    ensures var n := |events| - 1; Resumes(events) <==> Resumes(events[..n]) || events[n].id != ""
  {
    var n := |events| - 1;
    if Resumes(events[..n]) {
      var i :| 0 <= i < n && events[..n][i].id != "";
      assert events[i].id != "";
    }
    if Resumes(events) {
      var i :| 0 <= i < |events| && events[i].id != "";
      assert i < n ==> events[..n][i].id != "";
    }
  }

  /** The end of the body stands for the line end it may lack. */
  lemma LastLineEnd(p: Parser, s: string)
    ensures Finish(Consume(p, s + "\n")) == Finish(Consume(p, s))
  {
    assert (s + "\n")[..|s|] == s;
    var q := Consume(p, s);
    if q.pending == "" { assert Line(q, "") == Dispatch(q); }
  }

  /** Written as an event stream, the payloads are handed on one by one, each as it was, for every way of cutting
      the stream up, either kind of line end, any lines that are ignored, and a last event that the body's end cuts
      short of its blank line or of its last line end; and the body may be resumed exactly if an event has an id. */
  lemma StreamDelivers(valid: string -> bool, events: seq<Event>, open: Event, cr: bool, cut: bool, pieces: seq<string>,
                       last: string)
    requires Sendable(open) && forall i :: 0 <= i < |events| ==> Sendable(events[i])
    requires Concat(pieces) + last + (if cut then "\n" else "") == Stream(events, cr) + Fields(open, cr)
    ensures var p := ReadBody(true, valid, pieces, last);
            p.events == Heard(events + [open]) && (p.resumable <==> Resumes(events + [open]))
  {
    var text := Concat(pieces) + last;
    StreamIsPieceFree(valid, pieces, last);
    LastLineEnd(START, text);
    assert text + "" == text;
    BodyDelivers(events, open, cr);
  }

  lemma BodyDelivers(events: seq<Event>, open: Event, cr: bool)
    requires Sendable(open) && forall i :: 0 <= i < |events| ==> Sendable(events[i])
    ensures var p := Finish(Consume(START, Stream(events, cr) + Fields(open, cr)));
            p.events == Heard(events + [open]) && (p.resumable <==> Resumes(events + [open]))
  {
    var all := events + [open];
    StreamConsumed(events, cr);
    ConsumeConcat(START, Stream(events, cr), Fields(open, cr));
    FieldsFill(Consume(START, Stream(events, cr)), open, cr);
    assert all[..|all| - 1] == events;
    ResumesMore(all);
    assert Heard(events) + [] == Heard(events);
  }
}
