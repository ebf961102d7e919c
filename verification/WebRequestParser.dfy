/**
  The JSON command parser of the REST interface: a tokenizer that walks a byte
  buffer, and the loop that fills a fixed-size command from its tokens.

  The functions say what each step yields on the unread part of the body; the
  classes do it in place.  What the parser accepts is compared with a grammar in
  module WebRequestGrammar.
 */
module WebRequestParser {
  import opened Common

  const MAX_BODY_SIZE := 1024
  const MAX_VALUE_SIZE := 256
  const MAX_FIELD_COUNT := 16
  const NAME_SIZE := 64

  datatype Token = ObjectStart | ObjectEnd | Str(value: string) | Colon | Comma | Eof | Error

  datatype ParseResult = Ok | BodyTooLarge | MalformedJson | MissingRequiredField | InvalidFieldType

  datatype Field = Field(key: string, value: string)

  /** The C strings a WebParsedCommand holds. */
  datatype Command = Command(verb: string, fields: seq<Field>)

  /** A token and the bytes still unread after it. */
  datatype Lexed = Lexed(token: Token, rest: string)

  datatype Outcome = Outcome(result: ParseResult, cmd: Command)

  predicate IsSpace(c: char) {
    c == ' ' || c == '\t' || c == '\n' || c == '\r'
  }

  function SkipSpace(s: string): (r: string)
    ensures |r| <= |s|
    ensures r == "" || !IsSpace(r[0])
  {
    if s != "" && IsSpace(s[0]) then SkipSpace(s[1..]) else s
  }

  function Unescape(c: char): char {
    if c == 'n' then '\n' else if c == 't' then '\t' else if c == 'r' then '\r' else c
  }

  /** The string token whose opening quote has been read; `acc` is what was decoded so far. */
  function ScanString(s: string, acc: string): (r: Lexed)
    ensures |r.rest| <= |s|
    ensures r.token.Str? || r.token.Error?
    decreases |s|
  {
    if s == "" || |acc| >= MAX_VALUE_SIZE - 1 then Lexed(Error, s)
    else if s[0] == '"' then Lexed(Str(acc), s[1..])
    else if s[0] == '\\' then
      if |s| == 1 then Lexed(Error, "") else ScanString(s[2..], acc + [Unescape(s[1])])
    else ScanString(s[1..], acc + [s[0]])
  }

  function NextToken(s: string): (r: Lexed)
    ensures |r.rest| <= |s|
    ensures !r.token.Eof? && !r.token.Error? ==> |r.rest| < |s|
  {
    var t := SkipSpace(s);
    if t == "" then Lexed(Eof, t)
    else match t[0]
      case '{' => Lexed(ObjectStart, t[1..])
      case '}' => Lexed(ObjectEnd, t[1..])
      case ':' => Lexed(Colon, t[1..])
      case ',' => Lexed(Comma, t[1..])
      case '"' => ScanString(t[1..], "")
      case _ => Lexed(Error, t)
  }

  function Finish(cmd: Command, found: bool): Outcome {
    Outcome(if !found || cmd.verb == "" then MissingRequiredField else Ok, cmd)
  }

  predicate IsCommandKey(key: string) {
    Truncate(key, NAME_SIZE - 1) == "command"
  }

  function Store(cmd: Command, key: string, value: string): Command {
    if IsCommandKey(key) then cmd.(verb := Truncate(value, NAME_SIZE - 1))
    else cmd.(fields := cmd.fields + [Field(Truncate(key, NAME_SIZE - 1), Truncate(value, MAX_VALUE_SIZE - 1))])
  }

  /** The pair loop on the unread bytes `s`. */
  function ParseMembers(s: string, cmd: Command, found: bool): Outcome
    decreases |s|
  {
    var k := NextToken(s);
    if k.token.ObjectEnd? then Finish(cmd, found)
    else if !k.token.Str? then Outcome(MalformedJson, cmd)
    else
      var colon := NextToken(k.rest);
      if !colon.token.Colon? then Outcome(MalformedJson, cmd)
      else
        var v := NextToken(colon.rest);
        if !v.token.Str? then Outcome(InvalidFieldType, cmd)
        else if !IsCommandKey(k.token.value) && |cmd.fields| >= MAX_FIELD_COUNT then Outcome(BodyTooLarge, cmd)
        else
          var stored := Store(cmd, k.token.value, v.token.value);
          var found' := found || IsCommandKey(k.token.value);
          var sep := NextToken(v.rest);
          if sep.token.ObjectEnd? then Finish(stored, found')
          else if sep.token.Comma? then ParseMembers(sep.rest, stored, found')
          else Outcome(MalformedJson, stored)
  }

  /** webRequestParse on a body, given what the command held before. */
  function Parse(body: string, cmd: Command): Outcome {
    if body == "" || |body| > MAX_BODY_SIZE then Outcome(BodyTooLarge, cmd)
    else
      var open := NextToken(body);
      if !open.token.ObjectStart? then Outcome(MalformedJson, cmd)
      else ParseMembers(open.rest, cmd.(fields := []), false)
  }

  class JsonParser {
    const data: array<char>
    var pos: nat

    ghost predicate Valid()
      reads this
    {
      pos <= data.Length
    }

    ghost function Rest(): string
      requires Valid()
      reads this, data
    {
      data[pos..]
    }

    constructor (data: array<char>)
      ensures Valid() && this.data == data && Rest() == data[..]
    {
      this.data := data;
      pos := 0;
    }

    method SkipWhitespace()
      requires Valid()
      modifies this
      ensures Valid() && Rest() == SkipSpace(old(Rest()))
    {
      while pos < data.Length && IsSpace(data[pos])
        invariant Valid()
        invariant SkipSpace(Rest()) == SkipSpace(old(Rest()))
      {
        assert Rest()[1..] == data[pos + 1..];
        pos := pos + 1;
      }
    }

    /** One character of a string, decoded into the token's buffer; false at the end of the input. */
    method ParseChar(value: array<char>, valueLen: nat) returns (more: bool)
      requires Valid() && pos < data.Length && data[pos] != '"' && value != data
      requires valueLen < MAX_VALUE_SIZE - 1 && value.Length == MAX_VALUE_SIZE
      modifies this, value
      ensures Valid() && (more <==> old(Rest()) != "\\") && (more ==> pos > old(pos))
      ensures old(ScanString(Rest(), value[..valueLen])) ==
              if more then ScanString(Rest(), value[..valueLen + 1]) else Lexed(Error, Rest())
    {
      ghost var unread, decoded := Rest(), value[..valueLen];
      var ch := data[pos];
      if ch == '\\' {
        pos := pos + 1;
        if pos >= data.Length {
          return false;
        }
        ch := data[pos];
        if ch == 'n' {
          ch := '\n';
        } else if ch == 't' {
          ch := '\t';
        } else if ch == 'r' {
          ch := '\r';
        }
      }
      pos := pos + 1;
      value[valueLen] := ch;
      assert value[..valueLen + 1] == decoded + [ch];
      assert Rest() == if unread[0] == '\\' then unread[2..] else unread[1..];
      return true;
    }

    method ParseString() returns (token: Token)
      requires Valid() && pos < data.Length
      modifies this
      ensures Valid()
      ensures Lexed(token, Rest()) ==
              if old(Rest()[0]) == '"' then ScanString(old(Rest()[1..]), "") else Lexed(Error, old(Rest()))
    {
      if data[pos] != '"' {
        return Error;
      }
      pos := pos + 1;
      assert Rest() == old(Rest()[1..]);
      var value := new char[MAX_VALUE_SIZE];
      var valueLen := 0;
      while pos < data.Length && valueLen < MAX_VALUE_SIZE - 1
        invariant Valid() && valueLen <= MAX_VALUE_SIZE - 1
        invariant ScanString(Rest(), value[..valueLen]) == ScanString(old(Rest()[1..]), "")
        decreases data.Length - pos
      {
        if data[pos] == '"' {
          ghost var unread, decoded := Rest(), value[..valueLen];
          value[valueLen] := '\0';
          pos := pos + 1;
          assert Rest() == unread[1..] && value[..valueLen] == decoded;
          return Str(value[..valueLen]);
        }
        var more := ParseChar(value, valueLen);
        if !more {
          return Error;
        }
        valueLen := valueLen + 1;
      }
      return Error;
    }

    method Next() returns (token: Token)
      requires Valid()
      modifies this
      ensures Valid()
      ensures Lexed(token, Rest()) == NextToken(old(Rest()))
    {
      SkipWhitespace();
      if pos >= data.Length {
        return Eof;
      }
      assert Rest()[1..] == data[pos + 1..];
      match data[pos]
      case '{' => pos := pos + 1; token := ObjectStart;
      case '}' => pos := pos + 1; token := ObjectEnd;
      case ':' => pos := pos + 1; token := Colon;
      case ',' => pos := pos + 1; token := Comma;
      case '"' => token := ParseString();
      case _ => token := Error;
    }
  }

  class WebParsedCommand {
    var verb: string
    const fields: array<Field>
    var fieldCount: nat

    ghost predicate Valid()
      reads this
    {
      fields.Length == MAX_FIELD_COUNT && fieldCount <= MAX_FIELD_COUNT
    }

    ghost function View(): Command
      requires Valid()
      reads this, fields
    {
      Command(verb, fields[..fieldCount])
    }

    constructor ()
      ensures Valid() && View() == Command("", []) && fresh(fields)
    {
      verb := "";
      fields := new Field[MAX_FIELD_COUNT](_ => Field("", ""));
      fieldCount := 0;
    }

    /** The branch that keeps a pair; false when a regular field finds no free slot. */
    method StorePair(key: string, value: string) returns (stored: bool)
      requires Valid()
      modifies this, fields
      ensures Valid()
      ensures stored <==> IsCommandKey(key) || |old(View()).fields| < MAX_FIELD_COUNT
      ensures View() == if stored then Store(old(View()), key, value) else old(View())
    {
      if IsCommandKey(key) {
        verb := Truncate(value, NAME_SIZE - 1);
        return true;
      }
      if fieldCount >= MAX_FIELD_COUNT {
        return false;
      }
      fields[fieldCount] := Field(Truncate(key, NAME_SIZE - 1), Truncate(value, MAX_VALUE_SIZE - 1));
      fieldCount := fieldCount + 1;
      return true;
    }
  }

  method ParsePairs(parser: JsonParser, cmd: WebParsedCommand) returns (result: ParseResult)
    requires parser.Valid() && cmd.Valid()
    modifies parser, cmd, cmd.fields
    ensures cmd.Valid()
    ensures Outcome(result, cmd.View()) == ParseMembers(old(parser.Rest()), old(cmd.View()), false)
  {
    var foundCommand := false;
    ghost var whole := ParseMembers(parser.Rest(), cmd.View(), false);
    while true
      invariant parser.Valid() && cmd.Valid()
      invariant ParseMembers(parser.Rest(), cmd.View(), foundCommand) == whole
      decreases |parser.Rest()|
    {
      var token := parser.Next();
      if token.ObjectEnd? {
        break;
      }
      if !token.Str? {
        return MalformedJson;
      }
      var key := token.value;
      token := parser.Next();
      if !token.Colon? {
        return MalformedJson;
      }
      token := parser.Next();
      if !token.Str? {
        return InvalidFieldType;
      }
      var stored := cmd.StorePair(key, token.value);
      if !stored {
        return BodyTooLarge;
      }
      foundCommand := foundCommand || IsCommandKey(key);
      token := parser.Next();
      if token.ObjectEnd? {
        break;
      }
      if token.Comma? {
        continue;
      }
      return MalformedJson;
    }
    result := if !foundCommand || cmd.verb == "" then MissingRequiredField else Ok;
  }

  method WebRequestParse(body: array?<char>, cmd: WebParsedCommand?) returns (result: ParseResult)
    requires cmd != null ==> cmd.Valid()
    modifies cmd, if cmd == null then {} else {cmd.fields}
    ensures cmd != null ==> cmd.Valid()
    ensures body == null || cmd == null ==> result == MalformedJson
    ensures body == null && cmd != null ==> cmd.View() == old(cmd.View())
    ensures body != null && cmd != null ==>
              Outcome(result, cmd.View()) == Parse(old(body[..]), old(cmd.View()))
  {
    if body == null || cmd == null {
      return MalformedJson;
    }
    if body.Length == 0 || body.Length > MAX_BODY_SIZE {
      return BodyTooLarge;
    }
    var parser := new JsonParser(body);
    var token := parser.Next();
    if token != ObjectStart {
      return MalformedJson;
    }
    ghost var start := cmd.View();
    cmd.fieldCount := 0;
    assert cmd.View() == start.(fields := []);
    result := ParsePairs(parser, cmd);
  }
}
