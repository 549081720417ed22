/** Python's `str.format` with keyword arguments, restricted to bare field
    names: literal text is copied, `{{` and `}}` stand for single braces,
    `{name}` is replaced by the argument called `name`, and a stray brace or
    an unknown name is an error. The inserted values are never scanned again. */
module Formatting {
  import opened Results

  type Args = map<string, string>

  predicate NotBrace(c: char) {
    c != '{' && c != '}'
  }

  /** Text that `str.format` copies unchanged. */
  predicate NoBraces(s: string) {
    forall i | 0 <= i < |s| :: NotBrace(s[i])
  }

  type PlainText = s: string | NoBraces(s)

  /** Prefixes the text of a successful result; an error passes through. */
  function Prepend(s: string, r: Result<string>): (r': Result<string>)
    ensures r'.Ok? <==> r.Ok?
    ensures r.Ok? ==> r'.value == s + r.value
    ensures r.Err? ==> r' == r
  {
    match r
    case Ok(v) => Ok(s + v)
    case Err(e) => Err(e)
  }

  /** The position of the `}` that closes a replacement field whose name
      starts at `i`; none when the text ends or another `{` comes first. */
  function FieldEnd(t: string, i: nat): (r: Option<nat>)
    requires i <= |t|
    ensures r.Some? ==> i <= r.value < |t| && t[r.value] == '}' && NoBraces(t[i..r.value])
    decreases |t| - i
  {
    if i == |t| then None
    else if t[i] == '}' then Some(i)
    else if t[i] == '{' then None
    else FieldEnd(t, i + 1)
  }

  /** `t.format(**args)`. */
  function Format(t: string, args: Args): (r: Result<string>)
    ensures NoBraces(t) ==> r == Ok(t)
    decreases |t|
  {
    if |t| == 0 then Ok("")
    else if t[0] == '{' then
      if |t| > 1 && t[1] == '{' then Prepend("{", Format(t[2..], args))
      else
        match FieldEnd(t, 1)
        case None => Err(FormatSyntax)
        case Some(j) =>
          var name := t[1..j];
          if name in args then Prepend(args[name], Format(t[j + 1..], args))
          else Err(MissingField(name))
    else if t[0] == '}' then
      if |t| > 1 && t[1] == '}' then Prepend("}", Format(t[2..], args))
      else Err(FormatSyntax)
    else
      assert t == t[..1] + t[1..];
      assert NoBraces(t) ==> NoBraces(t[1..]);
      Prepend(t[..1], Format(t[1..], args))
  }

  lemma NoBracesAppend(a: string, b: string)
    requires NoBraces(a) && NoBraces(b)
    ensures NoBraces(a + b)
  {
  }

  /** Brace-free text in front of a format string is copied to the front of
      its rendering, whatever follows. */
  lemma {:induction false} FormatPlainPrefix(a: string, rest: string, args: Args)
    requires NoBraces(a)
    ensures Format(a + rest, args) == Prepend(a, Format(rest, args))
    decreases |a|
  {
    if |a| == 0 {
      assert a + rest == rest;
      match Format(rest, args)
      case Ok(v) => assert a + v == v;
      case Err(_) =>
    } else {
      var t := a + rest;
      assert t[0] == a[0] && NotBrace(a[0]);
      assert t[..1] == a[..1];
      assert t[1..] == a[1..] + rest;
      FormatPlainPrefix(a[1..], rest, args);
      match Format(rest, args)
      case Ok(v) => assert a[..1] + (a[1..] + v) == a + v;
      case Err(_) =>
    }
  }

  /** A replacement field `{name}` whose name has an argument is replaced by
      that argument verbatim: braces or field syntax inside the value are not
      expanded again. */
  lemma FormatField(name: string, rest: string, args: Args)
    requires NoBraces(name) && name in args
    ensures Format("{" + name + "}" + rest, args) == Prepend(args[name], Format(rest, args))
  {
    var t := "{" + name + "}" + rest;
    assert t[0] == '{';
    assert |t| > 1;
    assert t[1] != '{' by {
      if |name| > 0 { assert t[1] == name[0] && NotBrace(name[0]); } else { assert t[1] == '}'; }
    }
    FieldEndAfter(t, name, 1);
    assert t[1..1 + |name|] == name;
    assert t[1 + |name| + 1..] == rest;
  }

  /** Scanning a brace-free name stops at the `}` right after it. */
  lemma {:induction false} FieldEndAfter(t: string, name: string, i: nat)
    requires i + |name| < |t| && t[i..i + |name|] == name && t[i + |name|] == '}'
    requires NoBraces(name)
    ensures FieldEnd(t, i) == Some(i + |name|)
    decreases |name|
  {
    if |name| > 0 {
      assert t[i] == name[0] && NotBrace(name[0]);
      assert t[i + 1..i + 1 + |name[1..]|] == name[1..];
      FieldEndAfter(t, name[1..], i + 1);
    }
  }

  /** A value that itself looks like a replacement field is inserted as is. */
  lemma ValuesAreNotReexpanded()
    ensures Format("{pergunta}", map["pergunta" := "{pergunta}"]) == Ok("{pergunta}")
  {
    var args := map["pergunta" := "{pergunta}"];
    assert "{pergunta}" == "{" + "pergunta" + "}" + "";
    FormatField("pergunta", "", args);
    assert Format("", args) == Ok("");
    assert "{pergunta}" + "" == "{pergunta}";
  }
}
