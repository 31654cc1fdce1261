/** The type-description and value-formatting helpers of semantix/utils.py.

    Python reflection (`__origin__`, `__args__`, `isinstance`, `vars`) is replaced by two closed
    datatypes: `TypeAnn` for type annotations and `Value` for runtime values. */
module Utils {
  import opened Results
  import opened Text

  // =====================================================================================
  // get_type: rendering a type annotation
  // =====================================================================================

  /** A type annotation, as far as `get_type` can tell annotations apart. */
  datatype TypeAnn =
    | ListT(elem: TypeAnn)                // __origin__ is list: list[T]
    | DictT(key: TypeAnn, value: TypeAnn) // __origin__ is dict: dict[K, V]
    | TupleT(args: seq<TypeAnn>)          // __origin__ is tuple: tuple[T1, ..., Tn]
    | SetT(elem: TypeAnn)                 // __origin__ is set: set[T]
    | ClassT(name: string)                // a plain class; `name` is its __name__
    | Other(text: string)                 // anything else (Union, Any, None, ...); `text` is its str()

  /** `get_type`. The set branch reads `_type.__args`, an attribute no annotation has, so it raises
      AttributeError; a failure anywhere inside an annotation propagates out. */
  function GetType(t: TypeAnn): (r: Result<string>)
    ensures r.Err? ==> r.error == AttributeError("__args")
  {
    match t
    case ListT(e) =>
      var s :- GetType(e);
      Ok("list[" + s + "]")
    case DictT(k, v) =>
      var ks :- GetType(k);
      var vs :- GetType(v);
      Ok("dict[" + ks + ", " + vs + "]")
    case TupleT(args) =>
      var ss :- AllOk(seq(|args|, i requires 0 <= i < |args| => GetType(args[i])));
      Ok("tuple[" + Join(ss, ", ") + "]")
    case SetT(_) =>
      Err(AttributeError("__args"))
    case ClassT(name) =>
      Ok(name)
    case Other(text) =>
      Ok(text)
  }

  /** The values of a sequence of results, or the first failure among them (a list
      comprehension stops at the first exception). */
  function AllOk(rs: seq<Result<string>>): (r: Result<seq<string>>)
    ensures r.Ok? <==> forall i :: 0 <= i < |rs| ==> rs[i].Ok?
    ensures r.Ok? ==> |r.value| == |rs| && forall i :: 0 <= i < |rs| ==> r.value[i] == rs[i].value
    ensures r.Err? ==> exists k :: 0 <= k < |rs| && rs[k] == Err(r.error) && forall i :: 0 <= i < k ==> rs[i].Ok?
  {
    if rs == [] then Ok([])
    else if rs[0].Err? then Err(rs[0].error)
    else
      var rest :- AllOk(rs[1..]);
      Ok([rs[0].value] + rest)
  }

  /** The annotation mentions a set somewhere. */
  predicate ContainsSet(t: TypeAnn)
  {
    match t
    case ListT(e) => ContainsSet(e)
    case DictT(k, v) => ContainsSet(k) || ContainsSet(v)
    case TupleT(args) => exists i :: 0 <= i < |args| && ContainsSet(args[i])
    case SetT(_) => true
    case ClassT(_) => false
    case Other(_) => false
  }

  /** `get_type` fails exactly on the annotations that mention a set, however deeply nested. */
  lemma {:induction false} GetTypeFailsIffSet(t: TypeAnn)
    ensures GetType(t).Err? <==> ContainsSet(t)
  {
    match t
    case ListT(e) =>
      GetTypeFailsIffSet(e);
    case DictT(k, v) =>
      GetTypeFailsIffSet(k);
      GetTypeFailsIffSet(v);
    case TupleT(args) =>
      var rs := seq(|args|, i requires 0 <= i < |args| => GetType(args[i]));
      assert GetType(t).Err? <==> AllOk(rs).Err?;
      forall i | 0 <= i < |args| ensures rs[i].Err? <==> ContainsSet(args[i]) {
        GetTypeFailsIffSet(args[i]);
      }
    case SetT(_) =>
    case ClassT(_) =>
    case Other(_) =>
  }

  /** The rendering composes: a container's rendering wraps its arguments' renderings. */
  lemma GetTypeComposes(t: TypeAnn)
    requires !ContainsSet(t)
    ensures GetType(t).Ok?
    ensures t.TupleT? ==> forall i :: 0 <= i < |t.args| ==> GetType(t.args[i]).Ok?
    ensures t.ListT? ==> GetType(t).value == "list[" + GetType(t.elem).value + "]"
    ensures t.DictT? ==>
      GetType(t).value == "dict[" + GetType(t.key).value + ", " + GetType(t.value).value + "]"
    ensures t.TupleT? ==>
      GetType(t).value
        == "tuple[" + Join(seq(|t.args|, i requires 0 <= i < |t.args| => GetType(t.args[i]).value), ", ") + "]"
    ensures t.ClassT? ==> GetType(t) == Ok(t.name)
    ensures t.Other? ==> GetType(t) == Ok(t.text)
  {
    GetTypeFailsIffSet(t);
    match t
    case ListT(e) =>
      GetTypeFailsIffSet(e);
    case DictT(k, v) =>
      GetTypeFailsIffSet(k);
      GetTypeFailsIffSet(v);
    case TupleT(args) =>
      forall i | 0 <= i < |args| ensures GetType(args[i]).Ok? {
        GetTypeFailsIffSet(args[i]);
      }
      var rs := seq(|args|, i requires 0 <= i < |args| => GetType(args[i]));
      assert AllOk(rs).value == seq(|args|, i requires 0 <= i < |args| => GetType(args[i]).value);
    case SetT(_) =>
    case ClassT(_) =>
    case Other(_) =>
  }

  /** `get_type` as its set branch is evidently meant to read, with `__args__` as in the list,
      dict and tuple branches: a set annotation renders as `set[T]`. */
  function GetTypeIntended(t: TypeAnn): string
  {
    match t
    case ListT(e) => "list[" + GetTypeIntended(e) + "]"
    case DictT(k, v) => "dict[" + GetTypeIntended(k) + ", " + GetTypeIntended(v) + "]"
    case TupleT(args) =>
      "tuple[" + Join(seq(|args|, i requires 0 <= i < |args| => GetTypeIntended(args[i])), ", ") + "]"
    case SetT(e) => "set[" + GetTypeIntended(e) + "]"
    case ClassT(name) => name
    case Other(text) => text
  }

  /** As written, `set[int]` is not rendered: the lookup of `__args` raises. */
  lemma SetAnnotationFails()
    ensures GetType(SetT(ClassT("int"))) == Err(AttributeError("__args"))
    ensures GetTypeIntended(SetT(ClassT("int"))) == "set[int]"
  {
  }

  /** The intended rendering agrees with `get_type` on exactly the annotations that mention no
      set; on the others `get_type` fails where the intended one renders. */
  lemma {:induction false} GetTypeIntendedAgrees(t: TypeAnn)
    ensures !ContainsSet(t) <==> GetType(t) == Ok(GetTypeIntended(t))
  {
    GetTypeFailsIffSet(t);
    match t
    case ListT(e) =>
      GetTypeIntendedAgrees(e);
    case DictT(k, v) =>
      GetTypeIntendedAgrees(k);
      GetTypeIntendedAgrees(v);
    case TupleT(args) =>
      if !ContainsSet(t) {
        forall i | 0 <= i < |args| ensures GetType(args[i]) == Ok(GetTypeIntended(args[i])) {
          GetTypeIntendedAgrees(args[i]);
        }
        var rs := seq(|args|, i requires 0 <= i < |args| => GetType(args[i]));
        var ss := seq(|args|, i requires 0 <= i < |args| => GetTypeIntended(args[i]));
        assert AllOk(rs).value == ss;
      }
    case SetT(_) =>
    case ClassT(_) =>
    case Other(_) =>
  }

  // =====================================================================================
  // extract_non_primary_type: the identifiers of a signature, primitives dropped
  // =====================================================================================

  /** The names `extract_non_primary_type` drops. */
  const PrimaryTypes: seq<string> :=
    ["str", "int", "float", "bool", "list", "dict", "tuple", "set", "Any", "None"]

  /** Where the run of identifier characters that continues at `i` ends. */
  function RunEnd(s: string, i: nat): (j: nat)
    requires i <= |s|
    ensures i <= j <= |s|
    ensures forall k :: i <= k < j ==> IsIdentChar(s[k])
    ensures j == |s| || !IsIdentChar(s[j])
    decreases |s| - i
  {
    if i < |s| && IsIdentChar(s[i]) then RunEnd(s, i + 1) else i
  }

  /** The identifiers `re.findall` finds with the pattern
      `(?:\[|,\s*|\|)([a-zA-Z_][a-zA-Z0-9_]*)|([a-zA-Z_][a-zA-Z0-9_]*)`, scanning left to right:
      a character that can start an identifier starts a match that runs as far as identifier
      characters go; any other character is skipped. The bracket, comma and bar prefixes
      capture the same identifier the bare alternative would. */
  function Tokens(s: string): (ts: seq<string>)
    ensures forall k :: 0 <= k < |ts| ==> IsIdentifier(ts[k])
    decreases |s|
  {
    if s == [] then []
    else if IsIdentStart(s[0]) then
      var j := RunEnd(s, 1);
      [s[..j]] + Tokens(s[j..])
    else Tokens(s[1..])
  }

  /** Drops the primitive names, keeping the order and the duplicates of the rest. */
  function NonPrimary(names: seq<string>): (r: seq<string>)
    ensures forall k :: 0 <= k < |r| ==> r[k] in names && r[k] !in PrimaryTypes
    ensures forall x :: x in PrimaryTypes ==> x !in r
  {
    if names == [] then []
    else (if names[0] in PrimaryTypes then [] else [names[0]]) + NonPrimary(names[1..])
  }

  /** Every name that is not primitive is kept as many times as it occurs. */
  lemma {:induction false} NonPrimaryCounts(names: seq<string>)
    ensures forall x :: x !in PrimaryTypes ==> multiset(NonPrimary(names))[x] == multiset(names)[x]
  {
    if names != [] {
      assert names == [names[0]] + names[1..];
      NonPrimaryCounts(names[1..]);
    }
  }

  /** `extract_non_primary_type`. */
  function ExtractNonPrimaryType(typeStr: string): (r: seq<string>)
    ensures typeStr == "" ==> r == []
    ensures forall k :: 0 <= k < |r| ==> IsIdentifier(r[k]) && r[k] !in PrimaryTypes
  {
    if typeStr == "" then [] else NonPrimary(Tokens(typeStr))
  }

  /** Two strings scan independently when no identifier run spans the seam between them. */
  predicate Seam(a: string, b: string)
  {
    a == [] || b == [] || !IsIdentChar(a[|a| - 1]) || !IsIdentChar(b[0])
  }

  lemma {:induction false} RunEndAppend(a: string, b: string, i: nat)
    requires 0 < i <= |a| && IsIdentChar(a[i - 1]) && Seam(a, b)
    ensures RunEnd(a + b, i) == RunEnd(a, i)
    decreases |a| - i
  {
    if i < |a| && IsIdentChar(a[i]) {
      RunEndAppend(a, b, i + 1);
    }
  }

  /** Scanning a concatenation scans its halves, when no identifier spans the seam. */
  lemma {:induction false} TokensAppend(a: string, b: string)
    requires Seam(a, b)
    ensures Tokens(a + b) == Tokens(a) + Tokens(b)
    decreases |a|
  {
    if a == [] {
      assert a + b == b;
    } else if IsIdentStart(a[0]) {
      RunEndAppend(a, b, 1);
      var j := RunEnd(a, 1);
      assert (a + b)[..j] == a[..j];
      assert (a + b)[j..] == a[j..] + b;
      TokensAppend(a[j..], b);
    } else {
      assert (a + b)[0] == a[0];
      assert (a + b)[1..] == a[1..] + b;
      assert Tokens(a + b) == Tokens(a[1..] + b);
      TokensAppend(a[1..], b);
    }
  }

  /** The scan from `i` stops at the first position `j` that ends a run of identifier
      characters. */
  lemma {:induction false} RunEndAt(s: string, i: nat, j: nat)
    requires i <= j <= |s| && (forall k :: i <= k < j ==> IsIdentChar(s[k])) && (j == |s| || !IsIdentChar(s[j]))
    ensures RunEnd(s, i) == j
    decreases j - i
  {
    if i < j {
      RunEndAt(s, i + 1, j);
    }
  }

  /** An identifier scans as itself. */
  lemma TokensOfIdentifier(s: string)
    requires IsIdentifier(s)
    ensures Tokens(s) == [s]
  {
    RunEndAt(s, 1, |s|);
    assert s[..|s|] == s;
  }

  /** Punctuation alone holds no identifier. */
  lemma {:induction false} TokensOfPunctuation(p: string)
    requires forall k :: 0 <= k < |p| ==> !IsIdentChar(p[k])
    ensures Tokens(p) == []
    decreases |p|
  {
    if p != [] {
      TokensOfPunctuation(p[1..]);
    }
  }

  function Flatten(xss: seq<seq<string>>): seq<string>
  {
    if xss == [] then [] else xss[0] + Flatten(xss[1..])
  }

  /** Identifiers joined by punctuation scan back to the same identifiers: scanning inverts
      joining. More generally, the tokens of a joined string are the tokens of its parts. */
  lemma {:induction false} TokensOfJoin(parts: seq<string>, sep: string)
    requires sep != [] && forall k :: 0 <= k < |sep| ==> !IsIdentChar(sep[k])
    ensures Tokens(Join(parts, sep)) == Flatten(seq(|parts|, i requires 0 <= i < |parts| => Tokens(parts[i])))
  {
    var xss := seq(|parts|, i requires 0 <= i < |parts| => Tokens(parts[i]));
    if |parts| == 0 {
    } else if |parts| == 1 {
      assert Flatten(xss) == xss[0] + Flatten(xss[1..]);
    } else {
      var rest := Join(parts[1..], sep);
      TokensOfJoin(parts[1..], sep);
      TokensOfPunctuation(sep);
      TokensAppend(parts[0], sep);
      TokensAppend(parts[0] + sep, rest);
      assert parts[0] + sep + rest == (parts[0] + sep) + rest;
      assert xss[1..] == seq(|parts[1..]|, i requires 0 <= i < |parts[1..]| => Tokens(parts[1..][i]));
    }
  }

  /** Identifiers joined by a punctuation separator scan back to exactly those identifiers. */
  lemma TokensOfJoinedIdentifiers(ids: seq<string>, sep: string)
    requires sep != [] && forall k :: 0 <= k < |sep| ==> !IsIdentChar(sep[k])
    requires forall i :: 0 <= i < |ids| ==> IsIdentifier(ids[i])
    ensures Tokens(Join(ids, sep)) == ids
  {
    TokensOfJoin(ids, sep);
    var xss := seq(|ids|, i requires 0 <= i < |ids| => Tokens(ids[i]));
    forall i | 0 <= i < |ids| ensures xss[i] == [ids[i]] {
      TokensOfIdentifier(ids[i]);
    }
    FlattenSingletons(xss, ids);
  }

  lemma {:induction false} FlattenSingletons(xss: seq<seq<string>>, ids: seq<string>)
    requires |xss| == |ids| && forall i :: 0 <= i < |ids| ==> xss[i] == [ids[i]]
    ensures Flatten(xss) == ids
  {
    if ids != [] {
      FlattenSingletons(xss[1..], ids[1..]);
    }
  }

  // ---- the signature get_type renders mentions exactly the annotation's class names ----

  /** The names an annotation refers to: its classes' names, and the identifiers in the string
      form of anything else. */
  function ReferencedNames(t: TypeAnn): seq<string>
  {
    match t
    case ListT(e) => ReferencedNames(e)
    case DictT(k, v) => ReferencedNames(k) + ReferencedNames(v)
    case TupleT(args) => Flatten(seq(|args|, i requires 0 <= i < |args| => ReferencedNames(args[i])))
    case SetT(e) => ReferencedNames(e)
    case ClassT(name) => [name]
    case Other(text) => Tokens(text)
  }

  /** Every class name in the annotation is an identifier (as a Python class name is). */
  predicate NamesAreIdentifiers(t: TypeAnn)
  {
    match t
    case ListT(e) => NamesAreIdentifiers(e)
    case DictT(k, v) => NamesAreIdentifiers(k) && NamesAreIdentifiers(v)
    case TupleT(args) => forall i :: 0 <= i < |args| ==> NamesAreIdentifiers(args[i])
    case SetT(e) => NamesAreIdentifiers(e)
    case ClassT(name) => IsIdentifier(name)
    case Other(_) => true
  }

  lemma {:induction false} NonPrimaryAppend(a: seq<string>, b: seq<string>)
    ensures NonPrimary(a + b) == NonPrimary(a) + NonPrimary(b)
  {
    if a == [] {
      assert a + b == b;
    } else {
      assert (a + b)[0] == a[0];
      assert (a + b)[1..] == a[1..] + b;
      NonPrimaryAppend(a[1..], b);
    }
  }

  lemma {:induction false} NonPrimaryFlatten(xss: seq<seq<string>>, yss: seq<seq<string>>)
    requires |xss| == |yss| && forall i :: 0 <= i < |xss| ==> NonPrimary(xss[i]) == NonPrimary(yss[i])
    ensures NonPrimary(Flatten(xss)) == NonPrimary(Flatten(yss))
  {
    if xss != [] {
      NonPrimaryFlatten(xss[1..], yss[1..]);
      NonPrimaryAppend(xss[0], Flatten(xss[1..]));
      NonPrimaryAppend(yss[0], Flatten(yss[1..]));
    }
  }

  lemma TokensOfKeywordBracket(kw: string, inner: string)
    requires IsIdentifier(kw)
    ensures Tokens(kw + "[" + inner + "]") == [kw] + Tokens(inner)
  {
    TokensBetween(kw, '[', inner, ']');
  }

  /** An identifier, then `inner` between two punctuation characters. */
  lemma TokensBetween(kw: string, open: char, inner: string, close: char)
    requires IsIdentifier(kw) && !IsIdentChar(open) && !IsIdentChar(close)
    ensures Tokens(kw + [open] + inner + [close]) == [kw] + Tokens(inner)
  {
    var a := kw + [open];
    TokensOfIdentifier(kw);
    TokensOfPunctuation([open]);
    TokensAppend(kw, [open]);
    assert Tokens(a) == [kw];
    assert a[|a| - 1] == open;
    TokensAppend(a, inner);
    assert Tokens(a + inner) == [kw] + Tokens(inner);
    TokensOfPunctuation([close]);
    TokensAppend(a + inner, [close]);
  }

  /** The keyword in front of a bracket is primitive, so only the bracket's contents count. */
  lemma NonPrimaryOfBracket(kw: string, inner: string, names: seq<string>)
    requires IsIdentifier(kw) && kw in PrimaryTypes
    requires NonPrimary(Tokens(inner)) == NonPrimary(names)
    ensures NonPrimary(Tokens(kw + "[" + inner + "]")) == NonPrimary(names)
  {
    TokensOfKeywordBracket(kw, inner);
    NonPrimaryAppend([kw], Tokens(inner));
    NonPrimaryOfKeyword(kw);
  }

  lemma ContainerKeywords()
    ensures IsIdentifier("list") && "list" in PrimaryTypes
    ensures IsIdentifier("dict") && "dict" in PrimaryTypes
    ensures IsIdentifier("tuple") && "tuple" in PrimaryTypes
  {
    assert PrimaryTypes[4] == "list" && PrimaryTypes[5] == "dict" && PrimaryTypes[6] == "tuple";
  }

  /** The type explanations a prompt needs are computed by scanning the rendered signature:
      scanning what `get_type` renders finds exactly the non-primitive names the annotation
      refers to, in order, duplicates kept. */
  lemma ExtractOfGetType(t: TypeAnn)
    requires NamesAreIdentifiers(t) && !ContainsSet(t)
    ensures GetType(t).Ok?
    ensures ExtractNonPrimaryType(GetType(t).value) == NonPrimary(ReferencedNames(t))
  {
    GetTypeFailsIffSet(t);
    NonPrimaryTokensOfGetType(t);
    ExtractIsNonPrimaryTokens(GetType(t).value);
  }

  lemma {:induction false} NonPrimaryTokensOfGetType(t: TypeAnn)
    requires NamesAreIdentifiers(t) && !ContainsSet(t)
    ensures GetType(t).Ok?
    ensures NonPrimary(Tokens(GetType(t).value)) == NonPrimary(ReferencedNames(t))
  {
    GetTypeComposes(t);
    match t
    case ListT(e) =>
      NonPrimaryTokensOfGetType(e);
      NonPrimaryTokensOfList(e);
    case DictT(k, v) =>
      NonPrimaryTokensOfGetType(k);
      NonPrimaryTokensOfGetType(v);
      NonPrimaryTokensOfDict(k, v);
    case TupleT(args) =>
      forall i | 0 <= i < |args|
        ensures GetType(args[i]).Ok?
        ensures NonPrimary(Tokens(GetType(args[i]).value)) == NonPrimary(ReferencedNames(args[i]))
      {
        NonPrimaryTokensOfGetType(args[i]);
      }
      NonPrimaryTokensOfTuple(args);
    case SetT(_) =>
    case ClassT(name) =>
      TokensOfIdentifier(name);
    case Other(_) =>
  }

  lemma NonPrimaryTokensOfList(e: TypeAnn)
    requires !ContainsSet(e) && GetType(e).Ok?
    requires NonPrimary(Tokens(GetType(e).value)) == NonPrimary(ReferencedNames(e))
    ensures NonPrimary(Tokens(GetType(ListT(e)).value)) == NonPrimary(ReferencedNames(ListT(e)))
  {
    var es := GetType(e).value;
    GetTypeOfList(e);
    ContainerKeywords();
    NonPrimaryOfBracket("list", es, ReferencedNames(e));
  }

  lemma NonPrimaryTokensOfDict(k: TypeAnn, v: TypeAnn)
    requires GetType(k).Ok? && GetType(v).Ok?
    requires NonPrimary(Tokens(GetType(k).value)) == NonPrimary(ReferencedNames(k))
    requires NonPrimary(Tokens(GetType(v).value)) == NonPrimary(ReferencedNames(v))
    ensures NonPrimary(Tokens(GetType(DictT(k, v)).value)) == NonPrimary(ReferencedNames(DictT(k, v)))
  {
    var ks, vs := GetType(k).value, GetType(v).value;
    GetTypeOfDict(k, v);
    NonPrimaryTokensOfPair(ks, vs, ReferencedNames(k), ReferencedNames(v));
  }

  lemma GetTypeOfList(e: TypeAnn)
    requires GetType(e).Ok?
    ensures GetType(ListT(e)).Ok?
    ensures GetType(ListT(e)).value == "list" + "[" + GetType(e).value + "]"
  {
    var es := GetType(e).value;
    assert "list[" + es + "]" == "list" + "[" + es + "]";
  }

  lemma GetTypeOfDict(k: TypeAnn, v: TypeAnn)
    requires GetType(k).Ok? && GetType(v).Ok?
    ensures GetType(DictT(k, v)).Ok?
    ensures GetType(DictT(k, v)).value == "dict" + "[" + (GetType(k).value + ", " + GetType(v).value) + "]"
  {
    var ks, vs := GetType(k).value, GetType(v).value;
    assert "dict[" + ks + ", " + vs + "]" == "dict" + "[" + (ks + ", " + vs) + "]";
  }

  lemma NonPrimaryTokensOfPair(ks: string, vs: string, kn: seq<string>, vn: seq<string>)
    requires NonPrimary(Tokens(ks)) == NonPrimary(kn)
    requires NonPrimary(Tokens(vs)) == NonPrimary(vn)
    ensures NonPrimary(Tokens("dict" + "[" + (ks + ", " + vs) + "]")) == NonPrimary(kn + vn)
  {
    var inner := ks + ", " + vs;
    TokensOfCommaPair(ks, vs);
    NonPrimaryAppend(Tokens(ks), Tokens(vs));
    NonPrimaryAppend(kn, vn);
    assert NonPrimary(Tokens(inner)) == NonPrimary(kn + vn);
    ContainerKeywords();
    NonPrimaryOfBracket("dict", inner, kn + vn);
  }

  lemma TokensOfCommaPair(a: string, b: string)
    ensures Tokens(a + ", " + b) == Tokens(a) + Tokens(b)
  {
    TokensOfPunctuation(", ");
    TokensAppend(a, ", ");
    TokensAppend(a + ", ", b);
  }

  lemma NonPrimaryOfKeyword(kw: string)
    requires kw in PrimaryTypes
    ensures NonPrimary([kw]) == []
  {
  }

  lemma NonPrimaryTokensOfTuple(args: seq<TypeAnn>)
    requires forall i :: 0 <= i < |args| ==> GetType(args[i]).Ok?
    requires forall i :: 0 <= i < |args| ==>
      NonPrimary(Tokens(GetType(args[i]).value)) == NonPrimary(ReferencedNames(args[i]))
    ensures GetType(TupleT(args)).Ok?
    ensures NonPrimary(Tokens(GetType(TupleT(args)).value)) == NonPrimary(ReferencedNames(TupleT(args)))
  {
    var ss := seq(|args|, i requires 0 <= i < |args| => GetType(args[i]).value);
    var yss := seq(|args|, i requires 0 <= i < |args| => ReferencedNames(args[i]));
    GetTypeOfTuple(args);
    NonPrimaryOfTupleText(ss, yss);
  }

  lemma GetTypeOfTuple(args: seq<TypeAnn>)
    requires forall i :: 0 <= i < |args| ==> GetType(args[i]).Ok?
    ensures GetType(TupleT(args)).Ok?
    ensures GetType(TupleT(args)).value
         == "tuple" + "[" + Join(seq(|args|, i requires 0 <= i < |args| => GetType(args[i]).value), ", ") + "]"
  {
    var ss := seq(|args|, i requires 0 <= i < |args| => GetType(args[i]).value);
    var rs := seq(|args|, i requires 0 <= i < |args| => GetType(args[i]));
    assert AllOk(rs).Ok? && |AllOk(rs).value| == |ss|;
    assert forall i :: 0 <= i < |ss| ==> AllOk(rs).value[i] == ss[i];
    assert AllOk(rs).value == ss;
  }

  lemma NonPrimaryOfTupleText(ss: seq<string>, yss: seq<seq<string>>)
    requires |ss| == |yss| && forall i :: 0 <= i < |ss| ==> NonPrimary(Tokens(ss[i])) == NonPrimary(yss[i])
    ensures NonPrimary(Tokens("tuple" + "[" + Join(ss, ", ") + "]")) == NonPrimary(Flatten(yss))
  {
    var inner := Join(ss, ", ");
    TokensOfPunctuation(", ");
    TokensOfJoin(ss, ", ");
    var xss := seq(|ss|, i requires 0 <= i < |ss| => Tokens(ss[i]));
    NonPrimaryFlatten(xss, yss);
    assert NonPrimary(Tokens(inner)) == NonPrimary(Flatten(yss));
    ContainerKeywords();
    NonPrimaryOfBracket("tuple", inner, Flatten(yss));
  }

  /** Proof step: the empty-string guard of `extract_non_primary_type` agrees with the scan. */
  lemma ExtractIsNonPrimaryTokens(s: string)
    ensures ExtractNonPrimaryType(s) == NonPrimary(Tokens(s))
  {
  }

  /** Identifiers joined by punctuation are reported in order, duplicates kept, with exactly
      the primitive names dropped. */
  lemma ExtractOfJoinedIdentifiers(ids: seq<string>, sep: string)
    requires sep != [] && forall k :: 0 <= k < |sep| ==> !IsIdentChar(sep[k])
    requires forall i :: 0 <= i < |ids| ==> IsIdentifier(ids[i])
    ensures ExtractNonPrimaryType(Join(ids, sep)) == NonPrimary(ids)
    ensures forall x :: x !in PrimaryTypes ==>
              multiset(ExtractNonPrimaryType(Join(ids, sep)))[x] == multiset(ids)[x]
  {
    NonPrimaryCounts(ids);
    TokensOfJoinedIdentifiers(ids, sep);
    ExtractIsNonPrimaryTokens(Join(ids, sep));
  }

  // =====================================================================================
  // get_object_string: rendering a runtime value as a literal
  // =====================================================================================

  /** Whether an enum's class also derives from a builtin type (`class E(str, Enum)`, `IntEnum`):
      its members then pass an earlier `isinstance` test of `get_object_string` than the Enum one. */
  datatype EnumMixin =
    | PlainEnum
    | StrMixin(formatted: string) // derives from str; `formatted` is f"{member}"
    | NumberMixin(text: string)   // derives from int or float; `text` is str(member)

  /** A runtime value, as far as `get_object_string` and `get_type_from_value` tell values apart. */
  datatype Value =
    | Str(s: string)
    | Int(i: int)
    | Bool(b: bool)
    | Float(text: string)                                   // `text` is str(x); floats are not modelled
    | NoneVal
    | List(items: seq<Value>)
    | Tuple(items: seq<Value>)
    | Dict(entries: seq<(Value, Value)>)                    // items() in insertion order
    | EnumMember(className: string, name: string, mixin: EnumMixin)
    | Obj(className: string, fields: seq<(string, Value)>)  // vars(obj) in insertion order
    | Opaque(className: string, text: string)               // no __dict__; `text` is str(obj)

  /** isinstance(v, str) */
  predicate IsStrInstance(v: Value)
  {
    v.Str? || (v.EnumMember? && v.mixin.StrMixin?)
  }

  /** isinstance(v, (int, float, bool)) */
  predicate IsNumberInstance(v: Value)
  {
    v.Int? || v.Bool? || v.Float? || (v.EnumMember? && v.mixin.NumberMixin?)
  }

  /** hasattr(v, "__dict__") */
  predicate HasDictAttribute(v: Value)
  {
    v.EnumMember? || v.Obj?
  }

  /** f"{v}" of a str instance */
  function StrText(v: Value): string
    requires IsStrInstance(v)
  {
    if v.Str? then v.s else v.mixin.formatted
  }

  /** str(v) of an int, float or bool instance */
  function NumberText(v: Value): string
    requires IsNumberInstance(v)
  {
    match v
    case Int(i) => IntToString(i)
    case Bool(b) => if b then "True" else "False"
    case Float(text) => text
    case EnumMember(_, _, mixin) => mixin.text
  }

  /** `get_object_string`: the first `isinstance` test that holds decides, in the source's order
      str, (int, float, bool), list, tuple, dict, Enum, `__dict__`, and the `str()` fallback. */
  function GetObjectString(v: Value): (r: string)
    ensures IsStrInstance(v) ==> |r| >= 2 && r[0] == '"' && r[|r| - 1] == '"'
    ensures v.List? ==> |r| >= 2 && r[0] == '[' && r[|r| - 1] == ']'
    ensures v.Tuple? ==> |r| >= 2 && r[0] == '(' && r[|r| - 1] == ')'
    ensures v.Dict? ==> |r| >= 2 && r[0] == '{' && r[|r| - 1] == '}'
    ensures HasDictAttribute(v) && !IsStrInstance(v) && !IsNumberInstance(v) ==> v.className <= r
    ensures r == [] ==> v.Float? || v.Opaque? || (v.EnumMember? && v.mixin.NumberMixin?)
    decreases v
  {
    if IsStrInstance(v) then "\"" + StrText(v) + "\""
    else if IsNumberInstance(v) then NumberText(v)
    else if v.List? then
      "[" + Join(seq(|v.items|, i requires 0 <= i < |v.items| => GetObjectString(v.items[i])), ", ") + "]"
    else if v.Tuple? then
      "(" + Join(seq(|v.items|, i requires 0 <= i < |v.items| => GetObjectString(v.items[i])), ", ") + ")"
    else if v.Dict? then
      "{" + Join(seq(|v.entries|, i requires 0 <= i < |v.entries| =>
                   GetObjectString(v.entries[i].0) + ": " + GetObjectString(v.entries[i].1)), ", ") + "}"
    else if v.EnumMember? then
      v.className + "." + v.name
    else if HasDictAttribute(v) then
      v.className + "(" + Join(seq(|v.fields|, i requires 0 <= i < |v.fields| =>
                               v.fields[i].0 + "=" + GetObjectString(v.fields[i].1)), ", ") + ")"
    else if v.NoneVal? then "None"
    else v.text
  }

  /** Strings are quoted without escaping, and empty containers render as `[]`, `()` and `{}`. */
  lemma FormatterEmpty(s: string)
    ensures GetObjectString(Str(s)) == "\"" + s + "\""
    ensures GetObjectString(List([])) == "[]"
    ensures GetObjectString(Tuple([])) == "()"
    ensures GetObjectString(Dict([])) == "{}"
  {
  }

  /** A one-element tuple has no trailing comma. */
  lemma FormatterTupleSingleton(x: Value)
    ensures GetObjectString(Tuple([x])) == "(" + GetObjectString(x) + ")"
  {
    var t := Tuple([x]);
    assert seq(|t.items|, i requires 0 <= i < |t.items| => GetObjectString(t.items[i])) == [GetObjectString(x)];
  }

  /** A one-entry dict is `{k: v}`. */
  lemma FormatterDictSingleton(x: Value, y: Value)
    ensures GetObjectString(Dict([(x, y)])) == "{" + GetObjectString(x) + ": " + GetObjectString(y) + "}"
  {
    var d := Dict([(x, y)]);
    assert seq(|d.entries|, i requires 0 <= i < |d.entries| =>
             GetObjectString(d.entries[i].0) + ": " + GetObjectString(d.entries[i].1))
        == [GetObjectString(x) + ": " + GetObjectString(y)];
  }

  /** First match wins: an enum member whose class derives from str renders as a quoted string,
      one deriving from int renders as a number, and only a plain enum member renders as
      `ClassName.MemberName`. */
  lemma EnumDispatchOrder(className: string, name: string, mixin: EnumMixin)
    ensures mixin.StrMixin? ==>
      GetObjectString(EnumMember(className, name, mixin)) == "\"" + mixin.formatted + "\""
    ensures mixin.NumberMixin? ==>
      GetObjectString(EnumMember(className, name, mixin)) == mixin.text
    ensures mixin.PlainEnum? ==>
      GetObjectString(EnumMember(className, name, mixin)) == className + "." + name
  {
  }

  // =====================================================================================
  // get_type_from_value: a signature inferred from one sample element
  // =====================================================================================

  /** value.__class__.__name__ */
  function ClassName(v: Value): string
  {
    match v
    case Str(_) => "str"
    case Int(_) => "int"
    case Bool(_) => "bool"
    case Float(_) => "float"
    case NoneVal => "NoneType"
    case List(_) => "list"
    case Tuple(_) => "tuple"
    case Dict(_) => "dict"
    case EnumMember(c, _, _) => c
    case Obj(c, _) => c
    case Opaque(c, _) => c
  }

  /** `next((value for value in values if value is not None), None)`: the first value that is
      not None, if there is one. */
  function FirstNotNone(values: seq<Value>): (r: Option<Value>)
    ensures r.None? <==> forall i :: 0 <= i < |values| ==> values[i].NoneVal?
    ensures r.Some? ==> exists k :: 0 <= k < |values| && values[k] == r.value && !r.value.NoneVal? &&
                                    forall i :: 0 <= i < k ==> values[i].NoneVal?
  {
    if values == [] then None
    else if !values[0].NoneVal? then Some(values[0])
    else
      var r := FirstNotNone(values[1..]);
      assert r.Some? ==> exists k :: 0 <= k < |values| - 1 && values[1..][k] == r.value &&
                                     forall i :: 0 <= i < k ==> values[1..][i].NoneVal?;
      assert r.Some? ==> exists k :: 1 <= k < |values| && values[k] == r.value &&
                                     forall i :: 0 <= i < k ==> values[i].NoneVal?;
      r
  }

  /** Proof step: what `get_type` prints for `list[C]`. */
  lemma ListSignature(c: string)
    ensures GetType(ListT(ClassT(c))) == Ok("list[" + c + "]")
  {
  }

  /** Proof step: what `get_type` prints for `dict[str, C]`. */
  lemma DictSignature(c: string)
    ensures GetType(DictT(ClassT("str"), ClassT(c))) == Ok("dict[str, " + c + "]")
  {
    assert GetType(ClassT("str")) == Ok("str") && GetType(ClassT(c)) == Ok(c);
    assert "dict[" + "str" + ", " + c + "]" == "dict[str, " + c + "]";
  }

  /** `get_type_from_value`. */
  function GetTypeFromValue(v: Value): (r: string)
    ensures v.List? && |v.items| > 0 ==> GetType(ListT(ClassT(ClassName(v.items[0])))) == Ok(r)
    ensures v.Dict? ==> exists c :: c != "" && GetType(DictT(ClassT("str"), ClassT(c))) == Ok(r)
    ensures !v.Dict? && !v.List? ==> r == ClassName(v)
  {
    if v.Dict? then
      var first := FirstNotNone(seq(|v.entries|, i requires 0 <= i < |v.entries| => v.entries[i].1));
      // `if class_name:` -- an empty class name is as falsy as no value at all
      var c := if first.Some? && ClassName(first.value) != "" then ClassName(first.value) else "Any";
      DictSignature(c);
      "dict[str, " + c + "]"
    else if v.List? then
      if |v.items| > 0 then ListSignature(ClassName(v.items[0])); "list[" + ClassName(v.items[0]) + "]"
      else "list"
    else ClassName(v)
  }

  /** The dict signature names the class of the first value that is not None (keys are not
      looked at), and falls back to `Any` when every value is None or that class name is empty. */
  lemma GetTypeFromDict(v: Value)
    requires v.Dict?
    ensures (forall i :: 0 <= i < |v.entries| ==> v.entries[i].1.NoneVal?) ==>
      GetTypeFromValue(v) == "dict[str, Any]"
    ensures forall k :: 0 <= k < |v.entries| && !v.entries[k].1.NoneVal? &&
                        (forall i :: 0 <= i < k ==> v.entries[i].1.NoneVal?) ==>
      GetTypeFromValue(v) ==
        if ClassName(v.entries[k].1) != "" then "dict[str, " + ClassName(v.entries[k].1) + "]"
        else "dict[str, Any]"
  {
    var values := seq(|v.entries|, i requires 0 <= i < |v.entries| => v.entries[i].1);
    var first := FirstNotNone(values);
    forall k | 0 <= k < |v.entries| && !v.entries[k].1.NoneVal? &&
               (forall i :: 0 <= i < k ==> v.entries[i].1.NoneVal?)
      ensures first == Some(v.entries[k].1)
    {
      assert values[k] == v.entries[k].1;
      assert first.Some?;
      var k' :| 0 <= k' < |values| && values[k'] == first.value && !first.value.NoneVal? &&
                forall i :: 0 <= i < k' ==> values[i].NoneVal?;
      assert !(k < k') && !(k' < k);
    }
  }

  /** On a non-empty list the signature names the class of element 0, whatever the others are,
      and on an empty list it is the bare `list`. */
  lemma GetTypeFromList(v: Value)
    requires v.List?
    ensures |v.items| == 0 ==> GetTypeFromValue(v) == "list"
    ensures |v.items| > 0 ==> GetTypeFromValue(v) == "list[" + ClassName(v.items[0]) + "]"
  {
  }

  /** A homogeneous list's inferred signature is what `get_type` renders for `list[C]`. */
  lemma InferredListSignature(v: Value, c: string)
    requires v.List? && |v.items| > 0
    requires forall i :: 0 <= i < |v.items| ==> ClassName(v.items[i]) == c
    ensures GetType(ListT(ClassT(c))) == Ok(GetTypeFromValue(v))
  {
  }

  /** A dict from strings to values of one class C has the signature `get_type` renders for
      `dict[str, C]`. */
  lemma InferredDictSignature(v: Value, c: string)
    requires v.Dict? && |v.entries| > 0 && c != ""
    requires forall i :: 0 <= i < |v.entries| ==>
      v.entries[i].0.Str? && !v.entries[i].1.NoneVal? && ClassName(v.entries[i].1) == c
    ensures GetType(DictT(ClassT("str"), ClassT(c))) == Ok(GetTypeFromValue(v))
  {
    GetTypeFromDict(v);
    DictSignature(c);
  }

  /** The type explanations requested for a list of objects of one user class C are exactly C. */
  lemma InferredListExplains(v: Value, c: string)
    requires v.List? && |v.items| > 0 && IsIdentifier(c) && c !in PrimaryTypes
    requires forall i :: 0 <= i < |v.items| ==> ClassName(v.items[i]) == c
    ensures ExtractNonPrimaryType(GetTypeFromValue(v)) == [c]
  {
    InferredListSignature(v, c);
    ExtractOfGetType(ListT(ClassT(c)));
    assert NonPrimary([c]) == [c] + NonPrimary([]);
  }
}
