/** A reader for the literals `get_object_string` writes. It is the formatter's partner: on the
    values whose rendering is unambiguous, reading back what the formatter wrote gives the value
    it was given (`ParseRendered`). */
module LiteralParser {
  import opened Results
  import opened Text
  import opened Utils

  /** The values whose literal reads back unambiguously: strings without a double quote
      (the formatter does not escape them), ints, bools, None, plain enum members and objects
      with identifier names, and containers of such values. Floats, mixed-in enum members and
      values without `__dict__` render through `str()`, which is not modelled. */
  predicate Simple(v: Value)
    decreases v
  {
    match v
    case Str(s) => forall i :: 0 <= i < |s| ==> s[i] != '"'
    case Int(_) => true
    case Bool(_) => true
    case Float(_) => false
    case NoneVal => true
    case List(items) => forall i :: 0 <= i < |items| ==> Simple(items[i])
    case Tuple(items) => forall i :: 0 <= i < |items| ==> Simple(items[i])
    case Dict(entries) => forall i :: 0 <= i < |entries| ==> Simple(entries[i].0) && Simple(entries[i].1)
    case EnumMember(c, n, mixin) => mixin.PlainEnum? && IsIdentifier(c) && IsIdentifier(n)
    case Obj(c, fields) =>
      IsIdentifier(c) && forall i :: 0 <= i < |fields| ==> IsIdentifier(fields[i].0) && Simple(fields[i].1)
    case Opaque(_, _) => false
  }

  /** What may follow a value inside a literal: a separator, a closing bracket or a key's colon. */
  predicate Delimited(rest: string)
  {
    rest == [] || rest[0] == ',' || rest[0] == ']' || rest[0] == ')' || rest[0] == '}' || rest[0] == ':'
  }

  // ---- scanning helpers ----

  function DigitEnd(s: string, i: nat): (j: nat)
    requires i <= |s|
    ensures i <= j <= |s|
    decreases |s| - i
  {
    if i < |s| && IsDigit(s[i]) then DigitEnd(s, i + 1) else i
  }

  function QuoteEnd(s: string, i: nat): (j: nat)
    requires i <= |s|
    ensures i <= j <= |s|
    decreases |s| - i
  {
    if i < |s| && s[i] != '"' then QuoteEnd(s, i + 1) else i
  }

  // ---- the reader: each function returns the value read and the text after it ----

  function ParseValue(s: string): (r: Option<(Value, string)>)
    ensures r.Some? ==> |r.value.1| < |s|
    decreases |s|, 1
  {
    if s == [] then None
    else if s[0] == '"' then
      var j := QuoteEnd(s, 1);
      if j < |s| then Some((Str(s[1..j]), s[j + 1..])) else None
    else if s[0] == '-' || IsDigit(s[0]) then
      ParseInt(s)
    else if s[0] == '[' then
      match ParseItems(s[1..], ']')
      case Some((items, rest)) => Some((List(items), rest))
      case None => None
    else if s[0] == '(' then
      match ParseItems(s[1..], ')')
      case Some((items, rest)) => Some((Tuple(items), rest))
      case None => None
    else if s[0] == '{' then
      match ParseEntries(s[1..])
      case Some((entries, rest)) => Some((Dict(entries), rest))
      case None => None
    else if IsIdentStart(s[0]) then
      ParseNamed(s)
    else None
  }

  function ParseInt(s: string): (r: Option<(Value, string)>)
    requires s != [] && (s[0] == '-' || IsDigit(s[0]))
    ensures r.Some? ==> |r.value.1| < |s|
  {
    var start := if s[0] == '-' then 1 else 0;
    var j := DigitEnd(s, start);
    if j == start then None
    else
      assert forall k :: start <= k < j ==> IsDigit(s[k]) by { DigitEndDigits(s, start); }
      var n := DigitsValue(s[start..j]);
      Some((Int(if start == 1 then -n else n), s[j..]))
  }

  /** An identifier followed by `(` starts an object, followed by `.` an enum member;
      `True`, `False` and `None` stand alone. */
  function ParseNamed(s: string): (r: Option<(Value, string)>)
    requires s != [] && IsIdentStart(s[0])
    ensures r.Some? ==> |r.value.1| < |s|
    decreases |s|, 0
  {
    var j := RunEnd(s, 1);
    var id, rest := s[..j], s[j..];
    if rest != [] && rest[0] == '(' then
      match ParseFields(rest[1..])
      case Some((fields, after)) => Some((Obj(id, fields), after))
      case None => None
    else if |rest| > 1 && rest[0] == '.' && IsIdentStart(rest[1]) then
      var k := RunEnd(rest, 2);
      Some((EnumMember(id, rest[1..k], PlainEnum), rest[k..]))
    else if id == "True" then Some((Bool(true), rest))
    else if id == "False" then Some((Bool(false), rest))
    else if id == "None" then Some((NoneVal, rest))
    else None
  }

  /** The elements of a list or tuple up to and including the closing bracket. */
  function ParseItems(s: string, close: char): (r: Option<(seq<Value>, string)>)
    ensures r.Some? ==> |r.value.1| < |s|
    decreases |s|, 3
  {
    if s != [] && s[0] == close then Some(([], s[1..])) else ParseElems(s, close)
  }

  function ParseElems(s: string, close: char): (r: Option<(seq<Value>, string)>)
    ensures r.Some? ==> |r.value.1| < |s|
    decreases |s|, 2
  {
    match ParseValue(s)
    case None => None
    case Some((v, rest)) =>
      if |rest| >= 2 && rest[..2] == ", " then
        match ParseElems(rest[2..], close)
        case Some((vs, after)) => Some(([v] + vs, after))
        case None => None
      else if rest != [] && rest[0] == close then Some(([v], rest[1..]))
      else None
  }

  /** The `key: value` entries of a dict up to and including `}`. */
  function ParseEntries(s: string): (r: Option<(seq<(Value, Value)>, string)>)
    ensures r.Some? ==> |r.value.1| < |s|
    decreases |s|, 3
  {
    if s != [] && s[0] == '}' then Some(([], s[1..])) else ParseEntryElems(s)
  }

  function ParseEntryElems(s: string): (r: Option<(seq<(Value, Value)>, string)>)
    ensures r.Some? ==> |r.value.1| < |s|
    decreases |s|, 2
  {
    match ParseValue(s)
    case None => None
    case Some((k, rest)) =>
      if |rest| < 2 || rest[..2] != ": " then None
      else
        match ParseValue(rest[2..])
        case None => None
        case Some((v, after)) =>
          if |after| >= 2 && after[..2] == ", " then
            match ParseEntryElems(after[2..])
            case Some((es, last)) => Some(([(k, v)] + es, last))
            case None => None
          else if after != [] && after[0] == '}' then Some(([(k, v)], after[1..]))
          else None
  }

  /** The `name=value` fields of an object up to and including `)`. */
  function ParseFields(s: string): (r: Option<(seq<(string, Value)>, string)>)
    ensures r.Some? ==> |r.value.1| < |s|
    decreases |s|, 3
  {
    if s != [] && s[0] == ')' then Some(([], s[1..])) else ParseFieldElems(s)
  }

  function ParseFieldElems(s: string): (r: Option<(seq<(string, Value)>, string)>)
    ensures r.Some? ==> |r.value.1| < |s|
    decreases |s|, 2
  {
    if s == [] || !IsIdentStart(s[0]) then None
    else
      var j := RunEnd(s, 1);
      var name, rest := s[..j], s[j..];
      if rest == [] || rest[0] != '=' then None
      else
        match ParseValue(rest[1..])
        case None => None
        case Some((v, after)) =>
          if |after| >= 2 && after[..2] == ", " then
            match ParseFieldElems(after[2..])
            case Some((fs, last)) => Some(([(name, v)] + fs, last))
            case None => None
          else if after != [] && after[0] == ')' then Some(([(name, v)], after[1..]))
          else None
  }

  // ---- where a scan stops ----

  lemma {:induction false} DigitEndDigits(s: string, i: nat)
    requires i <= |s|
    ensures forall k :: i <= k < DigitEnd(s, i) ==> IsDigit(s[k])
    decreases |s| - i
  {
    if i < |s| && IsDigit(s[i]) {
      DigitEndDigits(s, i + 1);
    }
  }

  lemma {:induction false} DigitEndAt(s: string, i: nat, j: nat)
    requires i <= j <= |s| && (forall k :: i <= k < j ==> IsDigit(s[k])) && (j == |s| || !IsDigit(s[j]))
    ensures DigitEnd(s, i) == j
    decreases j - i
  {
    if i < j {
      DigitEndAt(s, i + 1, j);
    }
  }

  lemma {:induction false} QuoteEndAt(s: string, i: nat, j: nat)
    requires i <= j < |s| && (forall k :: i <= k < j ==> s[k] != '"') && s[j] == '"'
    ensures QuoteEnd(s, i) == j
    decreases j - i
  {
    if i < j {
      QuoteEndAt(s, i + 1, j);
    }
  }

  /** An identifier followed by something that is not an identifier character is read whole. */
  lemma IdentifierRun(id: string, rest: string)
    requires IsIdentifier(id) && (rest == [] || !IsIdentChar(rest[0]))
    ensures RunEnd(id + rest, 1) == |id|
    ensures (id + rest)[..|id|] == id && (id + rest)[|id|..] == rest
  {
    RunEndAt(id + rest, 1, |id|);
  }

  // ---- round trip ----

  /** A simple value's literal is never empty and never starts with a closing bracket. */
  lemma RenderedStart(v: Value)
    requires Simple(v)
    ensures GetObjectString(v) != []
    ensures GetObjectString(v)[0] !in {']', ')', '}'}
  {
  }

  lemma StrRoundTrip(x: string, rest: string)
    requires forall i :: 0 <= i < |x| ==> x[i] != '"'
    ensures ParseValue(GetObjectString(Str(x)) + rest) == Some((Str(x), rest))
  {
    var s := GetObjectString(Str(x)) + rest;
    assert s == "\"" + x + "\"" + rest;
    QuoteEndAt(s, 1, |x| + 1);
    assert s[1..|x| + 1] == x;
    assert s[|x| + 2..] == rest;
  }

  lemma IntRoundTrip(i: int, rest: string)
    requires Delimited(rest)
    ensures ParseValue(GetObjectString(Int(i)) + rest) == Some((Int(i), rest))
  {
    IntText(i);
    if i < 0 {
      assert GetObjectString(Int(i)) + rest == "-" + NatToString(-i) + rest;
      DigitsRoundTrip("-", -i, rest);
    } else {
      assert GetObjectString(Int(i)) + rest == "" + NatToString(i) + rest;
      DigitsRoundTrip("", i, rest);
    }
  }

  lemma IntText(i: int)
    ensures GetObjectString(Int(i)) == if i < 0 then "-" + NatToString(-i) else "" + NatToString(i)
  {
  }

  /** An optional minus sign and the decimal digits of `n` read back as the integer. */
  lemma DigitsRoundTrip(sign: string, n: nat, rest: string)
    requires sign == "" || sign == "-"
    requires Delimited(rest)
    ensures ParseValue(sign + NatToString(n) + rest) == Some((Int(if sign == "-" then -(n as int) else n), rest))
  {
    var digits := NatToString(n);
    var s := sign + digits + rest;
    ParseValueInt(s);
    DigitsTail(sign, digits, rest);
    NatToStringValue(n);
  }

  lemma DigitsTail(sign: string, digits: string, rest: string)
    requires sign == "" || sign == "-"
    requires |digits| > 0 && forall k :: 0 <= k < |digits| ==> IsDigit(digits[k])
    requires Delimited(rest)
    ensures var s := sign + digits + rest;
      && DigitEnd(s, |sign|) == |sign| + |digits|
      && s[|sign|..|sign| + |digits|] == digits
      && s[|sign| + |digits|..] == rest
  {
    var s := sign + digits + rest;
    DigitEndAt(s, |sign|, |sign| + |digits|);
    assert s[|sign|..|sign| + |digits|] == digits;
    assert s[|sign| + |digits|..] == rest;
  }

  lemma ParseValueInt(s: string)
    requires s != [] && (s[0] == '-' || IsDigit(s[0]))
    ensures ParseValue(s) == ParseInt(s)
  {
  }

  lemma KeywordRoundTrip(v: Value, rest: string)
    requires v.Bool? || v.NoneVal?
    requires Delimited(rest)
    ensures ParseValue(GetObjectString(v) + rest) == Some((v, rest))
  {
    var id := GetObjectString(v);
    assert id == (if v.NoneVal? then "None" else if v.b then "True" else "False");
    IdentifierRun(id, rest);
    assert ParseValue(id + rest) == ParseNamed(id + rest);
  }

  lemma EnumRoundTrip(c: string, n: string, rest: string)
    requires IsIdentifier(c) && IsIdentifier(n)
    requires Delimited(rest)
    ensures ParseValue(GetObjectString(EnumMember(c, n, PlainEnum)) + rest) == Some((EnumMember(c, n, PlainEnum), rest))
  {
    var r := "." + n + rest;
    assert GetObjectString(EnumMember(c, n, PlainEnum)) + rest == c + r;
    ParseValueNamed(c + r);
    ParseNamedEnum(c, n, rest);
  }

  lemma ParseValueNamed(s: string)
    requires s != [] && IsIdentStart(s[0])
    ensures ParseValue(s) == ParseNamed(s)
  {
  }

  lemma ParseNamedEnum(c: string, n: string, rest: string)
    requires IsIdentifier(c) && IsIdentifier(n)
    requires Delimited(rest)
    ensures ParseNamed(c + ("." + n + rest)) == Some((EnumMember(c, n, PlainEnum), rest))
  {
    var r := "." + n + rest;
    IdentifierRun(c, r);
    EnumSuffix(n, rest);
  }

  /** After the class name: a dot, then the member name read up to what follows it. */
  lemma EnumSuffix(n: string, rest: string)
    requires IsIdentifier(n) && Delimited(rest)
    ensures var r := "." + n + rest;
      && |r| > 1 && r[0] == '.' && IsIdentStart(r[1])
      && RunEnd(r, 2) == |n| + 1 && r[1..|n| + 1] == n && r[|n| + 1..] == rest
  {
    var r := "." + n + rest;
    assert r[1..] == n + rest;
    RunEndAt(r, 2, |n| + 1) by {
      forall k | 2 <= k < |n| + 1 ensures IsIdentChar(r[k]) {
        assert r[k] == n[k - 1];
      }
    }
    assert r[1..|n| + 1] == n;
    assert r[|n| + 1..] == rest;
  }

  // ---- one step of reading a bracketed literal ----

  lemma ParseListText(body: string, items: seq<Value>, rest: string)
    requires ParseItems(body, ']') == Some((items, rest))
    ensures ParseValue("[" + body) == Some((List(items), rest))
  {
    assert ("[" + body)[1..] == body;
  }

  lemma ParseTupleText(body: string, items: seq<Value>, rest: string)
    requires ParseItems(body, ')') == Some((items, rest))
    ensures ParseValue("(" + body) == Some((Tuple(items), rest))
  {
    assert ("(" + body)[1..] == body;
  }

  lemma ParseDictText(body: string, entries: seq<(Value, Value)>, rest: string)
    requires ParseEntries(body) == Some((entries, rest))
    ensures ParseValue("{" + body) == Some((Dict(entries), rest))
  {
    assert ("{" + body)[1..] == body;
  }

  lemma ParseObjText(c: string, body: string, fields: seq<(string, Value)>, rest: string)
    requires IsIdentifier(c)
    requires ParseFields(body) == Some((fields, rest))
    ensures ParseValue(c + ("(" + body)) == Some((Obj(c, fields), rest))
  {
    IdentifierRun(c, "(" + body);
    assert ("(" + body)[1..] == body;
    ParseValueNamed(c + ("(" + body));
  }

  lemma EntryLast(k0: string, v0: string, rest: string, key: Value, val: Value)
    requires ParseValue(k0 + (": " + (v0 + ("}" + rest)))) == Some((key, ": " + (v0 + ("}" + rest))))
    requires ParseValue(v0 + ("}" + rest)) == Some((val, "}" + rest))
    ensures ParseEntryElems(k0 + (": " + (v0 + ("}" + rest)))) == Some(([(key, val)], rest))
  {
    var close := "}" + rest;
    var r := ": " + (v0 + close);
    assert r[..2] == ": " && r[2..] == v0 + close;
    assert close[0] == '}' && close[1..] == rest;
    assert |close| >= 2 ==> close[..2][0] == '}';
  }

  lemma EntryMore(k0: string, v0: string, tail: string, key: Value, val: Value, more: seq<(Value, Value)>, rest: string)
    requires ParseValue(k0 + (": " + (v0 + (", " + tail)))) == Some((key, ": " + (v0 + (", " + tail))))
    requires ParseValue(v0 + (", " + tail)) == Some((val, ", " + tail))
    requires ParseEntryElems(tail) == Some((more, rest))
    ensures ParseEntryElems(k0 + (": " + (v0 + (", " + tail)))) == Some(([(key, val)] + more, rest))
  {
    var r := ": " + (v0 + (", " + tail));
    assert r[..2] == ": " && r[2..] == v0 + (", " + tail);
    assert (", " + tail)[..2] == ", " && (", " + tail)[2..] == tail;
  }

  lemma FieldLast(name: string, v0: string, rest: string, val: Value)
    requires IsIdentifier(name)
    requires ParseValue(v0 + (")" + rest)) == Some((val, ")" + rest))
    ensures ParseFieldElems(name + ("=" + (v0 + (")" + rest)))) == Some(([(name, val)], rest))
  {
    var after := v0 + (")" + rest);
    FieldName(name, after);
    var close := ")" + rest;
    assert close[0] == ')' && close[1..] == rest;
    assert |close| >= 2 ==> close[..2][0] == ')';
  }

  lemma FieldMore(name: string, v0: string, tail: string, val: Value, more: seq<(string, Value)>, rest: string)
    requires IsIdentifier(name)
    requires ParseValue(v0 + (", " + tail)) == Some((val, ", " + tail))
    requires ParseFieldElems(tail) == Some((more, rest))
    ensures ParseFieldElems(name + ("=" + (v0 + (", " + tail)))) == Some(([(name, val)] + more, rest))
  {
    var after := v0 + (", " + tail);
    FieldName(name, after);
    assert (", " + tail)[..2] == ", " && (", " + tail)[2..] == tail;
  }

  /** A field's name is read up to its `=`. */
  lemma FieldName(name: string, after: string)
    requires IsIdentifier(name)
    ensures var s := name + ("=" + after);
      && s != [] && IsIdentStart(s[0])
      && RunEnd(s, 1) == |name| && s[..|name|] == name && s[|name|..] == "=" + after
      && (s[|name|..])[1..] == after
  {
    IdentifierRun(name, "=" + after);
  }

  // ---- the separated sequences inside brackets ----

  /** Elements rendered and joined with ", ", then a closing bracket, read back as the elements. */
  lemma {:induction false} ElemsRoundTrip(strs: seq<string>, items: seq<Value>, close: char, rest: string)
    requires |strs| == |items| > 0
    requires close == ']' || close == ')'
    requires forall i, r :: 0 <= i < |items| && Delimited(r) ==> ParseValue(strs[i] + r) == Some((items[i], r))
    ensures ParseElems(Join(strs, ", ") + [close] + rest, close) == Some((items, rest))
  {
    if |strs| == 1 {
      ElemsLast(strs[0], items[0], close, rest);
      assert items == [items[0]];
    } else {
      JoinSplit(strs, ", ");
      ElemsRoundTrip(strs[1..], items[1..], close, rest);
      ElemsMore(strs[0], items[0], Join(strs[1..], ", "), items[1..], rest, close);
      assert items == [items[0]] + items[1..];
    }
  }

  /** Proof step of `ElemsRoundTrip`: the last element, followed by the closing bracket. */
  lemma ElemsLast(str: string, item: Value, close: char, rest: string)
    requires close == ']' || close == ')'
    requires forall r :: Delimited(r) ==> ParseValue(str + r) == Some((item, r))
    ensures ParseElems(str + [close] + rest, close) == Some(([item], rest))
  {
    var r := [close] + rest;
    assert r[0] == close && Delimited(r);
    assert str + [close] + rest == str + r;
    assert ParseValue(str + r) == Some((item, r));
  }

  /** Proof step of `ElemsRoundTrip`: an element followed by ", " and the remaining elements. */
  lemma ElemsMore(str: string, item: Value, joined: string, items: seq<Value>, rest: string, close: char)
    requires forall r :: Delimited(r) ==> ParseValue(str + r) == Some((item, r))
    requires ParseElems(joined + [close] + rest, close) == Some((items, rest))
    ensures ParseElems(str + ", " + joined + [close] + rest, close) == Some(([item] + items, rest))
  {
    var tail := joined + [close] + rest;
    var r := ", " + tail;
    Regroup(str, ", ", joined, [close], rest);
    assert joined + ([close] + rest) == tail;
    assert r[0] == ',' && Delimited(r);
    assert ParseValue(str + r) == Some((item, r));
    assert r[..2] == ", " && r[2..] == tail;
  }

  lemma ItemsRoundTrip(strs: seq<string>, items: seq<Value>, close: char, rest: string)
    requires |strs| == |items|
    requires close == ']' || close == ')'
    requires forall i, r :: 0 <= i < |items| && Delimited(r) ==> ParseValue(strs[i] + r) == Some((items[i], r))
    requires |strs| > 0 ==> strs[0] != [] && strs[0][0] != close
    ensures ParseItems(Join(strs, ", ") + [close] + rest, close) == Some((items, rest))
  {
    if |strs| > 0 {
      ElemsRoundTrip(strs, items, close, rest);
      JoinCons(strs[0], strs[1..], ", ");
      assert strs == [strs[0]] + strs[1..];
    }
  }

  /** The first of several joined `head sep value` parts, split off the rest of the text. */
  lemma JoinedHead(es: seq<string>, head: string, sep: string, v: string, close: string, rest: string)
    requires |es| > 0 && es[0] == head + sep + v
    ensures Join(es, ", ") + close + rest
         == head + (sep + (v + (if |es| == 1 then close + rest else ", " + (Join(es[1..], ", ") + close + rest))))
  {
    if |es| == 1 {
      Regroup(head, sep, v, close, rest);
    } else {
      JoinSplit(es, ", ");
      HeadRegroup(es[0], Join(es[1..], ", "), head, sep, v, close, rest);
    }
  }

  // Proof steps only: regrouping of string concatenations, kept out of the larger round-trip
  // proofs so that each of them stays small.
  lemma Enclose(open: string, mid: string, close: string, rest: string)
    ensures open + mid + close + rest == open + (mid + close + rest)
  {
  }

  lemma EncloseNamed(name: string, open: string, mid: string, close: string, rest: string)
    ensures name + open + mid + close + rest == name + (open + (mid + close + rest))
  {
  }

  lemma Regroup(a: string, b: string, c: string, d: string, e: string)
    ensures a + b + c + d + e == a + (b + (c + (d + e)))
  {
  }

  lemma HeadRegroup(x: string, tail: string, head: string, sep: string, v: string, close: string, rest: string)
    requires x == head + sep + v
    ensures x + ", " + tail + close + rest == head + (sep + (v + (", " + (tail + close + rest))))
  {
    Regroup(head, sep, v, ", " + tail, close + rest);
  }

  lemma {:induction false} EntryElemsRoundTrip(ks: seq<string>, vs: seq<string>, es: seq<string>, entries: seq<(Value, Value)>, rest: string)
    requires |ks| == |vs| == |es| == |entries| > 0
    requires forall i :: 0 <= i < |es| ==> es[i] == ks[i] + ": " + vs[i]
    requires forall i, r :: 0 <= i < |entries| && Delimited(r) ==> ParseValue(ks[i] + r) == Some((entries[i].0, r))
    requires forall i, r :: 0 <= i < |entries| && Delimited(r) ==> ParseValue(vs[i] + r) == Some((entries[i].1, r))
    ensures ParseEntryElems(Join(es, ", ") + "}" + rest) == Some((entries, rest))
  {
    if |es| == 1 {
      EntryElemsOne(ks, vs, es, entries, rest);
    } else {
      EntryElemsRoundTrip(ks[1..], vs[1..], es[1..], entries[1..], rest);
      EntryElemsCons(ks, vs, es, entries, rest);
    }
  }

  lemma EntryElemsOne(ks: seq<string>, vs: seq<string>, es: seq<string>, entries: seq<(Value, Value)>, rest: string)
    requires |ks| == |vs| == |es| == |entries| == 1
    requires es[0] == ks[0] + ": " + vs[0]
    requires forall r :: Delimited(r) ==> ParseValue(ks[0] + r) == Some((entries[0].0, r))
    requires forall r :: Delimited(r) ==> ParseValue(vs[0] + r) == Some((entries[0].1, r))
    ensures ParseEntryElems(Join(es, ", ") + "}" + rest) == Some((entries, rest))
  {
    JoinedHead(es, ks[0], ": ", vs[0], "}", rest);
    var key, val := entries[0].0, entries[0].1;
    var after := "}" + rest;
    assert after[0] == '}' && Delimited(after);
    var r := ": " + (vs[0] + after);
    assert r[0] == ':' && Delimited(r);
    EntryLast(ks[0], vs[0], rest, key, val);
    assert entries == [(key, val)];
  }

  lemma EntryElemsCons(ks: seq<string>, vs: seq<string>, es: seq<string>, entries: seq<(Value, Value)>, rest: string)
    requires |ks| == |vs| == |es| == |entries| > 1
    requires es[0] == ks[0] + ": " + vs[0]
    requires forall r :: Delimited(r) ==> ParseValue(ks[0] + r) == Some((entries[0].0, r))
    requires forall r :: Delimited(r) ==> ParseValue(vs[0] + r) == Some((entries[0].1, r))
    requires ParseEntryElems(Join(es[1..], ", ") + "}" + rest) == Some((entries[1..], rest))
    ensures ParseEntryElems(Join(es, ", ") + "}" + rest) == Some((entries, rest))
  {
    JoinedHead(es, ks[0], ": ", vs[0], "}", rest);
    var key, val := entries[0].0, entries[0].1;
    var tail := Join(es[1..], ", ") + "}" + rest;
    var after := ", " + tail;
    assert after[0] == ',' && Delimited(after);
    var r := ": " + (vs[0] + after);
    assert r[0] == ':' && Delimited(r);
    EntryMore(ks[0], vs[0], tail, key, val, entries[1..], rest);
    assert entries == [(key, val)] + entries[1..];
  }

  lemma {:induction false} FieldElemsRoundTrip(vs: seq<string>, es: seq<string>, fields: seq<(string, Value)>, rest: string)
    requires |vs| == |es| == |fields| > 0
    requires forall i :: 0 <= i < |es| ==> es[i] == fields[i].0 + "=" + vs[i] && IsIdentifier(fields[i].0)
    requires forall i, r :: 0 <= i < |fields| && Delimited(r) ==> ParseValue(vs[i] + r) == Some((fields[i].1, r))
    ensures ParseFieldElems(Join(es, ", ") + ")" + rest) == Some((fields, rest))
  {
    JoinedHead(es, fields[0].0, "=", vs[0], ")", rest);
    var name, val := fields[0].0, fields[0].1;
    if |es| == 1 {
      var after := ")" + rest;
      assert after[0] == ')' && Delimited(after);
      assert ParseValue(vs[0] + after) == Some((val, after));
      FieldLast(name, vs[0], rest, val);
      assert fields == [(name, val)];
    } else {
      var tail := Join(es[1..], ", ") + ")" + rest;
      var after := ", " + tail;
      assert after[0] == ',' && Delimited(after);
      assert ParseValue(vs[0] + after) == Some((val, after));
      FieldElemsRoundTrip(vs[1..], es[1..], fields[1..], rest);
      FieldMore(name, vs[0], tail, val, fields[1..], rest);
      assert fields == [(name, val)] + fields[1..];
    }
  }

  // ---- the renderings of the containers ----

  function RenderedItems(items: seq<Value>): (strs: seq<string>)
    ensures |strs| == |items| && forall i :: 0 <= i < |items| ==> strs[i] == GetObjectString(items[i])
  {
    seq(|items|, i requires 0 <= i < |items| => GetObjectString(items[i]))
  }

  lemma RenderList(items: seq<Value>)
    ensures GetObjectString(List(items)) == "[" + Join(RenderedItems(items), ", ") + "]"
  {
  }

  lemma RenderTuple(items: seq<Value>)
    ensures GetObjectString(Tuple(items)) == "(" + Join(RenderedItems(items), ", ") + ")"
  {
  }

  lemma RenderDict(entries: seq<(Value, Value)>)
    ensures GetObjectString(Dict(entries))
         == "{" + Join(seq(|entries|, i requires 0 <= i < |entries| =>
                         GetObjectString(entries[i].0) + ": " + GetObjectString(entries[i].1)), ", ") + "}"
  {
  }

  lemma RenderObj(c: string, fields: seq<(string, Value)>)
    requires IsIdentifier(c)
    ensures GetObjectString(Obj(c, fields))
         == c + "(" + Join(seq(|fields|, i requires 0 <= i < |fields| =>
                            fields[i].0 + "=" + GetObjectString(fields[i].1)), ", ") + ")"
  {
  }

  // ---- round trip ----

  /** Reading back what `get_object_string` wrote gives the value it was given, whatever
      separator or closing bracket follows it. */
  lemma {:induction false} ParseRendered(v: Value, rest: string)
    requires Simple(v) && Delimited(rest)
    ensures ParseValue(GetObjectString(v) + rest) == Some((v, rest))
    decreases v
  {
    match v
    case Str(x) =>
      StrRoundTrip(x, rest);
    case Int(i) =>
      IntRoundTrip(i, rest);
    case Bool(_) =>
      KeywordRoundTrip(v, rest);
    case NoneVal =>
      KeywordRoundTrip(v, rest);
    case EnumMember(c, n, _) =>
      EnumRoundTrip(c, n, rest);
    case List(items) =>
      forall i, r | 0 <= i < |items| && Delimited(r)
        ensures ParseValue(GetObjectString(items[i]) + r) == Some((items[i], r))
      {
        ParseRendered(items[i], r);
      }
      ListRoundTrip(items, rest);
    case Tuple(items) =>
      forall i, r | 0 <= i < |items| && Delimited(r)
        ensures ParseValue(GetObjectString(items[i]) + r) == Some((items[i], r))
      {
        ParseRendered(items[i], r);
      }
      TupleRoundTrip(items, rest);
    case Dict(entries) =>
      forall i, r | 0 <= i < |entries| && Delimited(r)
        ensures ParseValue(GetObjectString(entries[i].0) + r) == Some((entries[i].0, r))
        ensures ParseValue(GetObjectString(entries[i].1) + r) == Some((entries[i].1, r))
      {
        ParseRendered(entries[i].0, r);
        ParseRendered(entries[i].1, r);
      }
      DictRoundTrip(entries, rest);
    case Obj(c, fields) =>
      forall i, r | 0 <= i < |fields| && Delimited(r)
        ensures ParseValue(GetObjectString(fields[i].1) + r) == Some((fields[i].1, r))
      {
        ParseRendered(fields[i].1, r);
      }
      ObjRoundTrip(c, fields, rest);
    case Float(_) =>
    case Opaque(_, _) =>
  }

  /** The rendered elements of a list or tuple, joined and closed, read back as the elements. */
  lemma RenderedItemsRoundTrip(items: seq<Value>, close: char, rest: string)
    requires close == ']' || close == ')'
    requires forall i :: 0 <= i < |items| ==> Simple(items[i])
    requires forall i, r :: 0 <= i < |items| && Delimited(r) ==>
      ParseValue(GetObjectString(items[i]) + r) == Some((items[i], r))
    ensures ParseItems(Join(RenderedItems(items), ", ") + [close] + rest, close) == Some((items, rest))
  {
    if |items| > 0 {
      RenderedStart(items[0]);
    }
    ItemsRoundTrip(RenderedItems(items), items, close, rest);
  }

  lemma ListRoundTrip(items: seq<Value>, rest: string)
    requires forall i :: 0 <= i < |items| ==> Simple(items[i])
    requires forall i, r :: 0 <= i < |items| && Delimited(r) ==>
      ParseValue(GetObjectString(items[i]) + r) == Some((items[i], r))
    ensures ParseValue(GetObjectString(List(items)) + rest) == Some((List(items), rest))
  {
    RenderedItemsRoundTrip(items, ']', rest);
    RenderList(items);
    var body := Join(RenderedItems(items), ", ") + [']'] + rest;
    Enclose("[", Join(RenderedItems(items), ", "), "]", rest);
    ParseListText(body, items, rest);
  }

  lemma TupleRoundTrip(items: seq<Value>, rest: string)
    requires forall i :: 0 <= i < |items| ==> Simple(items[i])
    requires forall i, r :: 0 <= i < |items| && Delimited(r) ==>
      ParseValue(GetObjectString(items[i]) + r) == Some((items[i], r))
    ensures ParseValue(GetObjectString(Tuple(items)) + rest) == Some((Tuple(items), rest))
  {
    RenderedItemsRoundTrip(items, ')', rest);
    RenderTuple(items);
    var body := Join(RenderedItems(items), ", ") + [')'] + rest;
    Enclose("(", Join(RenderedItems(items), ", "), ")", rest);
    ParseTupleText(body, items, rest);
  }

  lemma DictRoundTrip(entries: seq<(Value, Value)>, rest: string)
    requires forall i :: 0 <= i < |entries| ==> Simple(entries[i].0) && Simple(entries[i].1)
    requires forall i, r :: 0 <= i < |entries| && Delimited(r) ==>
      ParseValue(GetObjectString(entries[i].0) + r) == Some((entries[i].0, r))
    requires forall i, r :: 0 <= i < |entries| && Delimited(r) ==>
      ParseValue(GetObjectString(entries[i].1) + r) == Some((entries[i].1, r))
    ensures ParseValue(GetObjectString(Dict(entries)) + rest) == Some((Dict(entries), rest))
  {
    var es := seq(|entries|, i requires 0 <= i < |entries| =>
                    GetObjectString(entries[i].0) + ": " + GetObjectString(entries[i].1));
    RenderDict(entries);
    var body := Join(es, ", ") + "}" + rest;
    Enclose("{", Join(es, ", "), "}", rest);
    DictBodyRoundTrip(entries, rest);
    ParseDictText(body, entries, rest);
  }

  /** Proof step of `DictRoundTrip`: the text after the opening brace reads back as the entries. */
  lemma DictBodyRoundTrip(entries: seq<(Value, Value)>, rest: string)
    requires forall i :: 0 <= i < |entries| ==> Simple(entries[i].0) && Simple(entries[i].1)
    requires forall i, r :: 0 <= i < |entries| && Delimited(r) ==>
      ParseValue(GetObjectString(entries[i].0) + r) == Some((entries[i].0, r))
    requires forall i, r :: 0 <= i < |entries| && Delimited(r) ==>
      ParseValue(GetObjectString(entries[i].1) + r) == Some((entries[i].1, r))
    ensures ParseEntries(Join(seq(|entries|, i requires 0 <= i < |entries| =>
                                 GetObjectString(entries[i].0) + ": " + GetObjectString(entries[i].1)), ", ")
                         + "}" + rest) == Some((entries, rest))
  {
    var ks := seq(|entries|, i requires 0 <= i < |entries| => GetObjectString(entries[i].0));
    var vs := seq(|entries|, i requires 0 <= i < |entries| => GetObjectString(entries[i].1));
    var es := seq(|entries|, i requires 0 <= i < |entries| =>
                    GetObjectString(entries[i].0) + ": " + GetObjectString(entries[i].1));
    var body := Join(es, ", ") + "}" + rest;
    if |entries| > 0 {
      RenderedStart(entries[0].0);
      JoinCons(es[0], es[1..], ", ");
      assert es == [es[0]] + es[1..];
      EntryElemsRoundTrip(ks, vs, es, entries, rest);
      assert body[0] == es[0][0];
    }
  }

  lemma ObjRoundTrip(c: string, fields: seq<(string, Value)>, rest: string)
    requires IsIdentifier(c)
    requires forall i :: 0 <= i < |fields| ==> IsIdentifier(fields[i].0) && Simple(fields[i].1)
    requires forall i, r :: 0 <= i < |fields| && Delimited(r) ==>
      ParseValue(GetObjectString(fields[i].1) + r) == Some((fields[i].1, r))
    ensures ParseValue(GetObjectString(Obj(c, fields)) + rest) == Some((Obj(c, fields), rest))
  {
    var es := seq(|fields|, i requires 0 <= i < |fields| => fields[i].0 + "=" + GetObjectString(fields[i].1));
    RenderObj(c, fields);
    var body := Join(es, ", ") + ")" + rest;
    EncloseNamed(c, "(", Join(es, ", "), ")", rest);
    ObjBodyRoundTrip(fields, rest);
    ParseObjText(c, body, fields, rest);
  }

  /** Proof step of `ObjRoundTrip`: the text after the opening parenthesis reads back as the
      fields. */
  lemma ObjBodyRoundTrip(fields: seq<(string, Value)>, rest: string)
    requires forall i :: 0 <= i < |fields| ==> IsIdentifier(fields[i].0) && Simple(fields[i].1)
    requires forall i, r :: 0 <= i < |fields| && Delimited(r) ==>
      ParseValue(GetObjectString(fields[i].1) + r) == Some((fields[i].1, r))
    ensures ParseFields(Join(seq(|fields|, i requires 0 <= i < |fields| =>
                                fields[i].0 + "=" + GetObjectString(fields[i].1)), ", ")
                        + ")" + rest) == Some((fields, rest))
  {
    var vs := seq(|fields|, i requires 0 <= i < |fields| => GetObjectString(fields[i].1));
    var es := seq(|fields|, i requires 0 <= i < |fields| => fields[i].0 + "=" + GetObjectString(fields[i].1));
    var body := Join(es, ", ") + ")" + rest;
    if |fields| > 0 {
      JoinCons(es[0], es[1..], ", ");
      assert es == [es[0]] + es[1..];
      FieldElemsRoundTrip(vs, es, fields, rest);
      assert body[0] == fields[0].0[0];
    }
  }
}
