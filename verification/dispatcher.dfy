/** The call-tool request handler: the `switch` over the tool name (the body
    of the `try` block) and the `catch` that turns every thrown error into an
    error envelope. The wall clock that `get_timestamp` reads is the
    parameter `now`. */
module Dispatcher {
  import opened Wrappers
  import opened JsValue
  import Decimal
  import Registry

  /** One item of a result's `content` array. */
  datatype ContentItem = ContentItem(kind: string, text: Value)

  /** `{content, isError?}`: `isError` is absent on success. */
  datatype CallToolResult = CallToolResult(content: seq<ContentItem>, isError: Option<bool>)

  const MessageRequired := "Message is required"
  const NumbersRequired := "Both 'a' and 'b' must be numbers"

  function UnknownTool(name: string): string {
    "Unknown tool: " + name
  }

  function TextItem(text: Value): ContentItem {
    ContentItem("text", text)
  }

  /** The envelope the `catch` block builds from an error message. */
  function ErrorResult(message: string): (r: CallToolResult)
    ensures |r.content| == 1 && r.content[0].kind == "text" && r.isError == Some(true)
    ensures r.content[0].text.Str? && |r.content[0].text.s| == 7 + |message|
    ensures r.content[0].text.s[..7] == "Error: " && r.content[0].text.s[7..] == message
  {
    CallToolResult([TextItem(Str("Error: " + message))], Some(true))
  }

  /** `${a} + ${b} = ${result}`: three numerals that read back as the two
      operands and their sum, joined by " + " and " = ". */
  function AddText(a: int, b: int): (text: string)
    ensures exists x, y, z ::
      && Decimal.IsNumeral(x) && Decimal.IsNumeral(y) && Decimal.IsNumeral(z)
      && text == x + (" + " + (y + (" = " + z)))
      && Decimal.ParseInt(x) == a && Decimal.ParseInt(y) == b && Decimal.ParseInt(z) == a + b
  {
    var x, y, z := Decimal.IntToString(a), Decimal.IntToString(b), Decimal.IntToString(a + b);
    Decimal.ParseIntToString(a);
    Decimal.ParseIntToString(b);
    Decimal.ParseIntToString(a + b);
    x + (" + " + (y + (" = " + z)))
  }

  /** The `add` text determines both operands. */
  lemma AddTextInjective(a: int, b: int, c: int, d: int)
    requires AddText(a, b) == AddText(c, d)
    ensures a == c && b == d
  {
    var xa, xb, xs := Decimal.IntToString(a), Decimal.IntToString(b), Decimal.IntToString(a + b);
    var yc, yd, ys := Decimal.IntToString(c), Decimal.IntToString(d), Decimal.IntToString(c + d);
    var tailA, tailC := xb + (" = " + xs), yd + (" = " + ys);
    assert xa + (" + " + tailA) == yc + (" + " + tailC);
    Decimal.NumeralNoSpace(xa);
    Decimal.NumeralNoSpace(yc);
    Decimal.SplitAtSpace(xa, " + " + tailA, yc, " + " + tailC);
    Decimal.IntToStringInjective(a, c);
    assert tailA == (" + " + tailA)[3..];
    assert tailC == (" + " + tailC)[3..];
    Decimal.NumeralNoSpace(xb);
    Decimal.NumeralNoSpace(yd);
    Decimal.SplitAtSpace(xb, " = " + xs, yd, " = " + ys);
    Decimal.IntToStringInjective(b, d);
  }

  /** The `try` block: the text the selected tool returns, or the message of
      the `Error` it throws. */
  function Invoke(name: string, args: Args, now: string): (r: Result<Value, string>)
    ensures r.Failure? <==>
      || name !in {"echo", "add", "get_timestamp"}
      || (name == "echo" && !Truthy(Get(args, "message")))
      || (name == "add" && (TypeOf(Get(args, "a")) != "number" || TypeOf(Get(args, "b")) != "number"))
    ensures r.Failure? ==> r.error in {MessageRequired, NumbersRequired, UnknownTool(name)}
  {
    if name == "echo" then
      var message := Get(args, "message");
      if !Truthy(message) then Failure(MessageRequired) else Success(message)
    else if name == "add" then
      var a := Get(args, "a");
      var b := Get(args, "b");
      if TypeOf(a) != "number" || TypeOf(b) != "number" then Failure(NumbersRequired)
      else Success(Str(AddText(a.n, b.n)))
    else if name == "get_timestamp" then
      Success(Str(now))
    else
      Failure(UnknownTool(name))
  }

  /** The call-tool handler. Every call yields exactly one text item, and
      `isError: true` is set exactly when the `try` block threw. */
  function CallTool(name: string, args: Args, now: string): (r: CallToolResult)
    ensures |r.content| == 1 && r.content[0].kind == "text"
    ensures r.isError == Some(true) || r.isError == None
    ensures r.isError == Some(true) <==> Invoke(name, args, now).Failure?
  {
    match Invoke(name, args, now)
    case Success(text) => CallToolResult([TextItem(text)], None)
    case Failure(message) => ErrorResult(message)
  }

  /** `echo` with a truthy `message` returns that value verbatim as the only item. */
  lemma EchoReturnsMessage(args: Args, now: string)
    requires Truthy(Get(args, "message"))
    ensures CallTool("echo", args, now) == CallToolResult([TextItem(Get(args, "message"))], None)
  {
  }

  /** `echo` with a missing or falsy `message` is an error. */
  lemma EchoRejectsFalsyMessage(args: Args, now: string)
    requires !Truthy(Get(args, "message"))
    ensures CallTool("echo", args, now) == ErrorResult(MessageRequired)
  {
    assert Invoke("echo", args, now) == Failure(MessageRequired);
  }

  /** `add` with two numbers renders the sum. */
  lemma AddFormatsSum(args: Args, now: string, a: int, b: int)
    requires Get(args, "a") == Number(a) && Get(args, "b") == Number(b)
    ensures CallTool("add", args, now) == CallToolResult(
      [TextItem(Str(Decimal.IntToString(a) + (" + " + (Decimal.IntToString(b) + (" = " + Decimal.IntToString(a + b))))))],
      None)
  {
    assert TypeOf(Get(args, "a")) == "number" && TypeOf(Get(args, "b")) == "number";
  }

  /** `add` where either argument is missing or not a number is an error. */
  lemma AddRejectsNonNumbers(args: Args, now: string)
    requires !Get(args, "a").Number? || !Get(args, "b").Number?
    ensures CallTool("add", args, now) == ErrorResult(NumbersRequired)
  {
    assert TypeOf(Get(args, "a")) != "number" || TypeOf(Get(args, "b")) != "number";
    assert Invoke("add", args, now) == Failure(NumbersRequired);
  }

  /** `get_timestamp` never fails and returns the clock reading. */
  lemma TimestampNeverFails(args: Args, now: string)
    ensures CallTool("get_timestamp", args, now) == CallToolResult([TextItem(Str(now))], None)
  {
  }

  /** A name outside the registry is reported as unknown, whatever the arguments. */
  lemma UnknownToolRejected(name: string, args: Args, now: string)
    requires name !in Registry.Names(Registry.Tools)
    ensures CallTool(name, args, now) == ErrorResult(UnknownTool(name))
  {
    Registry.RegistryShape();
    assert Invoke(name, args, now) == Failure(UnknownTool(name));
  }

  /** The dispatcher resolves exactly the registered names: the unknown-tool
      error comes back if and only if the name is not in the registry. */
  lemma DispatchMatchesRegistry(name: string, args: Args, now: string)
    ensures CallTool(name, args, now) == ErrorResult(UnknownTool(name)) <==> name !in Registry.Names(Registry.Tools)
  {
    Registry.RegistryShape();
    if name !in Registry.Names(Registry.Tools) {
      UnknownToolRejected(name, args, now);
    } else {
      var unknown := UnknownTool(name);
      assert unknown[0] == 'U';
      assert MessageRequired[0] == 'M' && NumbersRequired[0] == 'B';
      var r := Invoke(name, args, now);
      if r.Failure? {
        assert r.error != unknown;
        ErrorResultInjective(r.error, unknown);
      }
    }
  }

  /** Different messages give different error envelopes. */
  lemma ErrorResultInjective(m1: string, m2: string)
    requires m1 != m2
    ensures ErrorResult(m1) != ErrorResult(m2)
  {
  }


  /** The two request examples: `add {a: 2, b: 3}` gives "2 + 3 = 5", and
      `echo {}` gives an error whose text starts with "Error:". */
  lemma Examples(now: string)
    ensures CallTool("add", Some(map["a" := Number(2), "b" := Number(3)]), now)
         == CallToolResult([TextItem(Str("2 + 3 = 5"))], None)
    ensures var r := CallTool("echo", Some(map[]), now);
      r.isError == Some(true) && r.content[0].text.Str? && r.content[0].text.s[..6] == "Error:"
  {
    assert Decimal.IntToString(2) == "2";
    assert Decimal.IntToString(3) == "3";
    assert Decimal.IntToString(5) == "5";
    assert AddText(2, 3) == "2 + 3 = 5";
  }
}
