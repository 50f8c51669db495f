/** `pkg/parameter`: the record every plugin receives as its protoc parameter, its
    base64-of-JSON codec, and the escape that turns a nested directory into the path back out. */
module Parameter {
  import opened Wrappers
  import opened Text
  import Json
  import Utf8
  import Base64
  import Paths

  /** The plugin parameters. `domain` and `namespace` are read and written by the backends
      although the Go struct does not declare them; they are modelled as two further
      optional members, after the seven declared ones. */
  datatype Stuff = Stuff(
    name: string,
    base: string,
    genDir: string,
    methodsDir: string,
    service: string,
    methodName: string,
    nestedDirectory: string,
    domain: string,
    namespace: string)

  const Empty := Stuff("", "", "", "", "", "", "", "", "")

  /** The `fmt.Stringer` rendering: `name (service.method)`. */
  function String(s: Stuff): (r: string)
    ensures |r| == |s.name| + |s.service| + |s.methodName| + 4
    ensures r[..|s.name|] == s.name && r[|s.name|..|s.name| + 2] == " ("
    ensures r[|s.name| + 2..|r| - 1] == s.service + "." + s.methodName && r[|r| - 1] == ')'
  {
    s.name + " (" + s.service + "." + s.methodName + ")"
  }

  // ---------------------------------------------------------------------------
  // The JSON members

  datatype Field = Name | Base | GenDir | MethodsDir | Service | Method | NestedDirectory | Domain | Namespace

  const Fields: seq<Field> := [Name, Base, GenDir, MethodsDir, Service, Method, NestedDirectory, Domain, Namespace]

  /** The JSON key of each field. */
  function Tag(f: Field): string {
    match f
    case Name => "name"
    case Base => "base"
    case GenDir => "gen_dir"
    case MethodsDir => "methods_dir"
    case Service => "service"
    case Method => "method"
    case NestedDirectory => "nested_directory"
    case Domain => "domain"
    case Namespace => "namespace"
  }

  function Get(s: Stuff, f: Field): string {
    match f
    case Name => s.name
    case Base => s.base
    case GenDir => s.genDir
    case MethodsDir => s.methodsDir
    case Service => s.service
    case Method => s.methodName
    case NestedDirectory => s.nestedDirectory
    case Domain => s.domain
    case Namespace => s.namespace
  }

  function Set(s: Stuff, f: Field, v: string): (r: Stuff)
    ensures Get(r, f) == v
    ensures forall g :: g != f ==> Get(r, g) == Get(s, g)
  {
    match f
    case Name => s.(name := v)
    case Base => s.(base := v)
    case GenDir => s.(genDir := v)
    case MethodsDir => s.(methodsDir := v)
    case Service => s.(service := v)
    case Method => s.(methodName := v)
    case NestedDirectory => s.(nestedDirectory := v)
    case Domain => s.(domain := v)
    case Namespace => s.(namespace := v)
  }

  lemma StuffExtensional(a: Stuff, b: Stuff)
    requires forall f :: Get(a, f) == Get(b, f)
    ensures a == b
  {
    assert Get(a, Name) == Get(b, Name) && Get(a, Base) == Get(b, Base) && Get(a, GenDir) == Get(b, GenDir);
    assert Get(a, MethodsDir) == Get(b, MethodsDir) && Get(a, Service) == Get(b, Service);
    assert Get(a, Method) == Get(b, Method) && Get(a, NestedDirectory) == Get(b, NestedDirectory);
    assert Get(a, Domain) == Get(b, Domain) && Get(a, Namespace) == Get(b, Namespace);
  }

  /** `name` is always written; every other member is `omitempty`. */
  predicate OmitEmpty(f: Field) {
    f != Name
  }

  /** Whether `json.Marshal` writes the member of field `f`. */
  predicate Written(s: Stuff, f: Field) {
    !OmitEmpty(f) || Get(s, f) != ""
  }

  /** The member of field `f`: its key and its value. */
  function Member(s: Stuff, f: Field): (string, string) {
    (Tag(f), Get(s, f))
  }

  /** The position in `fs` of the first field whose key is `key`, or `|fs|`. */
  function TagIndex(key: string, fs: seq<Field>): (j: nat)
    ensures j <= |fs|
    ensures j < |fs| ==> Tag(fs[j]) == key
  {
    if fs == [] then 0 else if Tag(fs[0]) == key then 0 else 1 + TagIndex(key, fs[1..])
  }

  /** Every member of `r` is the member of a field of `fs` that is written. */
  predicate MembersOfWritten(s: Stuff, fs: seq<Field>, r: seq<(string, string)>) {
    forall i :: 0 <= i < |r| ==>
      var j := TagIndex(r[i].0, fs); j < |fs| && r[i] == Member(s, fs[j]) && Written(s, fs[j])
  }

  /** Every written field of `fs` has its member in `r`, and no other field has. */
  predicate AllWritten(s: Stuff, fs: seq<Field>, r: seq<(string, string)>) {
    forall f :: f in fs ==> (Member(s, f) in r <==> Written(s, f))
  }

  /** The members of `r` come in the order of their fields in `fs`, each once. */
  predicate InFieldOrder(fs: seq<Field>, r: seq<(string, string)>) {
    forall i, k :: 0 <= i < k < |r| ==> TagIndex(r[i].0, fs) < TagIndex(r[k].0, fs)
  }

  predicate Distinct(fs: seq<Field>) {
    forall i, j :: 0 <= i < j < |fs| ==> fs[i] != fs[j]
  }

  /** The members `json.Marshal` writes for the fields in `fs`: `name` always, every other
      field only when it is not empty, in the order of `fs`. */
  function MembersOf(s: Stuff, fs: seq<Field>): (r: seq<(string, string)>)
    ensures MembersOfWritten(s, fs, r)
    ensures AllWritten(s, fs, r)
    ensures Distinct(fs) ==> InFieldOrder(fs, r)
  {
    if fs == [] then []
    else
      var f := fs[0];
      var rest := MembersOf(s, fs[1..]);
      if !Written(s, f) then
        MembersSkip(s, fs, rest);
        rest
      else
        MembersCons(s, fs, rest);
        [Member(s, f)] + rest
  }

  lemma TagInjective(f: Field, g: Field)
    requires Tag(f) == Tag(g)
    ensures f == g
  {
    match f
    case Name => assert |Tag(g)| == 4 && Tag(g)[1] == 'a';
    case Base => assert |Tag(g)| == 4 && Tag(g)[1] == 'a';
    case GenDir => assert |Tag(g)| == 7 && Tag(g)[0] == 'g';
    case MethodsDir => assert |Tag(g)| == 11;
    case Service => assert |Tag(g)| == 7 && Tag(g)[0] == 's';
    case Method => assert |Tag(g)| == 6;
    case NestedDirectory => assert |Tag(g)| == 16;
    case Domain => assert |Tag(g)| == 6 && Tag(g)[0] == 'd';
    case Namespace => assert |Tag(g)| == 9;
  }

  lemma TagIndexOf(fs: seq<Field>, j: nat)
    requires j < |fs|
    ensures TagIndex(Tag(fs[j]), fs) < |fs| && fs[TagIndex(Tag(fs[j]), fs)] == fs[j]
  {
    var k := TagIndex(Tag(fs[j]), fs);
    if k == |fs| {
      TagIndexMissing(Tag(fs[j]), fs, j);
    } else {
      TagInjective(fs[k], fs[j]);
    }
  }

  lemma {:induction false} TagIndexMissing(key: string, fs: seq<Field>, j: nat)
    requires j < |fs| && Tag(fs[j]) == key
    ensures TagIndex(key, fs) < |fs|
  {
    if j > 0 && Tag(fs[0]) != key {
      TagIndexMissing(key, fs[1..], j - 1);
    }
  }

  /** The step of `MembersOf` that skips an empty `omitempty` field. */
  lemma MembersSkip(s: Stuff, fs: seq<Field>, rest: seq<(string, string)>)
    requires fs != [] && !Written(s, fs[0])
    requires MembersOfWritten(s, fs[1..], rest) && AllWritten(s, fs[1..], rest)
    requires Distinct(fs[1..]) ==> InFieldOrder(fs[1..], rest)
    ensures MembersOfWritten(s, fs, rest) && AllWritten(s, fs, rest)
    ensures Distinct(fs) ==> InFieldOrder(fs, rest)
  {
    var f := fs[0];
    forall i | 0 <= i < |rest|
      ensures var j := TagIndex(rest[i].0, fs); j < |fs| && rest[i] == Member(s, fs[j]) && Written(s, fs[j])
    {
      var j' := TagIndex(rest[i].0, fs[1..]);
      if Tag(f) == rest[i].0 {
        TagInjective(f, fs[1..][j']);
      }
    }
    if Distinct(fs) {
      assert Distinct(fs[1..]) by {
        forall i, j | 0 <= i < j < |fs[1..]| ensures fs[1..][i] != fs[1..][j] {
          assert fs[1..][i] == fs[i + 1] && fs[1..][j] == fs[j + 1];
        }
      }
      MembersShift(s, fs, rest);
    }
  }

  /** The step of `MembersOf` that writes the member of the first field. */
  lemma MembersCons(s: Stuff, fs: seq<Field>, rest: seq<(string, string)>)
    requires fs != [] && Written(s, fs[0])
    requires MembersOfWritten(s, fs[1..], rest) && AllWritten(s, fs[1..], rest)
    requires Distinct(fs[1..]) ==> InFieldOrder(fs[1..], rest)
    ensures var r := [Member(s, fs[0])] + rest;
      MembersOfWritten(s, fs, r) && AllWritten(s, fs, r) && (Distinct(fs) ==> InFieldOrder(fs, r))
  {
    ConsWritten(s, fs, rest);
    ConsAll(s, fs, rest);
    if Distinct(fs) {
      assert Distinct(fs[1..]) by {
        forall i, j | 0 <= i < j < |fs[1..]| ensures fs[1..][i] != fs[1..][j] {
          assert fs[1..][i] == fs[i + 1] && fs[1..][j] == fs[j + 1];
        }
      }
      ConsOrder(s, fs, rest);
    }
  }

  lemma ConsWritten(s: Stuff, fs: seq<Field>, rest: seq<(string, string)>)
    requires fs != [] && Written(s, fs[0])
    requires MembersOfWritten(s, fs[1..], rest)
    ensures MembersOfWritten(s, fs, [Member(s, fs[0])] + rest)
  {
    var f := fs[0];
    var r := [Member(s, f)] + rest;
    forall i | 0 <= i < |r|
      ensures var j := TagIndex(r[i].0, fs); j < |fs| && r[i] == Member(s, fs[j]) && Written(s, fs[j])
    {
      if i > 0 {
        assert r[i] == rest[i - 1];
        var j' := TagIndex(rest[i - 1].0, fs[1..]);
        if Tag(f) == r[i].0 {
          TagInjective(f, fs[1..][j']);
        }
      }
    }
  }

  lemma ConsAll(s: Stuff, fs: seq<Field>, rest: seq<(string, string)>)
    requires fs != [] && Written(s, fs[0])
    requires AllWritten(s, fs[1..], rest)
    ensures AllWritten(s, fs, [Member(s, fs[0])] + rest)
  {
    var f := fs[0];
    var r := [Member(s, f)] + rest;
    forall g | g in fs ensures Member(s, g) in r <==> Written(s, g) {
      if g != f {
        assert g in fs[1..];
        if Member(s, g) == Member(s, f) {
          TagInjective(g, f);
        }
      }
    }
  }

  lemma ConsOrder(s: Stuff, fs: seq<Field>, rest: seq<(string, string)>)
    requires fs != [] && Distinct(fs)
    requires MembersOfWritten(s, fs[1..], rest) && InFieldOrder(fs[1..], rest)
    ensures InFieldOrder(fs, [Member(s, fs[0])] + rest)
  {
    var r := [Member(s, fs[0])] + rest;
    MembersShift(s, fs, rest);
    assert TagIndex(r[0].0, fs) == 0;
    forall k | 0 < k < |r| ensures TagIndex(r[k].0, fs) == 1 + TagIndex(rest[k - 1].0, fs[1..]) {
      assert r[k] == rest[k - 1];
    }
  }

  /** Below a first field that none of them belongs to, the members keep their order. */
  lemma MembersShift(s: Stuff, fs: seq<Field>, rest: seq<(string, string)>)
    requires fs != [] && Distinct(fs)
    requires MembersOfWritten(s, fs[1..], rest) && InFieldOrder(fs[1..], rest)
    ensures forall i :: 0 <= i < |rest| ==> TagIndex(rest[i].0, fs) == 1 + TagIndex(rest[i].0, fs[1..])
    ensures InFieldOrder(fs, rest)
  {
    forall i | 0 <= i < |rest| ensures TagIndex(rest[i].0, fs) == 1 + TagIndex(rest[i].0, fs[1..]) {
      var j' := TagIndex(rest[i].0, fs[1..]);
      assert fs[1..][j'] == fs[j' + 1];
      if Tag(fs[0]) == rest[i].0 {
        TagInjective(fs[0], fs[j' + 1]);
      }
    }
  }

  /** `Encode`: `json.Marshal`, whose text is UTF-8, then `StdEncoding.EncodeToString`. */
  function Encode(s: Stuff): string {
    Base64.Encode(Utf8.Encode(Json.ObjectText(MembersOf(s, Fields))))
  }

  /** `MustEncode`: marshalling a record of strings cannot fail. */
  function MustEncode(s: Stuff): string {
    Encode(s)
  }

  // ---------------------------------------------------------------------------
  // Decoding

  datatype DecodeError =
    | IllegalBase64   // base64.CorruptInputError
    | SyntaxError     // json.SyntaxError: not a JSON text
    | TypeError       // json.UnmarshalTypeError: a value that does not fit the record

  function Message(e: DecodeError): string {
    match e
    case IllegalBase64 => "illegal base64 data"
    case SyntaxError => "invalid JSON"
    case TypeError => "json: cannot unmarshal value into Go value of type parameter.Stuff"
  }

  /** The field a key names: the field with exactly that name, or else the first one it
      equals up to case folding. */
  function FieldOf(key: string): (r: Option<Field>)
    ensures r.Some? ==> Json.FoldEq(key, Tag(r.value))
    ensures r.None? <==> forall f :: !Json.FoldEq(key, Tag(f))
    ensures forall f :: Json.FoldEq(key, Tag(f)) ==> r == Some(f)
  {
    FoldDistinct(key);
    FieldsDistinct();
    if key == "name" then Some(Name)
    else if key == "base" then Some(Base)
    else if key == "gen_dir" then Some(GenDir)
    else if key == "methods_dir" then Some(MethodsDir)
    else if key == "service" then Some(Service)
    else if key == "method" then Some(Method)
    else if key == "nested_directory" then Some(NestedDirectory)
    else if key == "domain" then Some(Domain)
    else if key == "namespace" then Some(Namespace)
    else
      var r := FoldField(key, Fields);
      if r.None? then FoldNone(key); r else r
  }

  lemma FoldNone(key: string)
    requires forall i :: 0 <= i < |Fields| ==> !Json.FoldEq(key, Tag(Fields[i]))
    ensures forall f :: !Json.FoldEq(key, Tag(f))
  {
    forall f ensures !Json.FoldEq(key, Tag(f)) {
      FieldsDistinct();
      assert f in Fields;
      var i :| 0 <= i < |Fields| && Fields[i] == f;
    }
  }

  function FoldField(key: string, fs: seq<Field>): (r: Option<Field>)
    ensures r.Some? ==> Json.FoldEq(key, Tag(r.value)) && r.value in fs
    ensures r.None? <==> forall i :: 0 <= i < |fs| ==> !Json.FoldEq(key, Tag(fs[i]))
  {
    if fs == [] then None
    else if Json.FoldEq(key, Tag(fs[0])) then Some(fs[0])
    else
      assert forall i :: 1 <= i < |fs| ==> fs[i] == fs[1..][i - 1];
      FoldField(key, fs[1..])
  }

  /** The characters of the JSON keys: lower-case ASCII letters and `_`. */
  predicate TagChar(c: char) {
    'a' <= c <= 'z' || c == '_'
  }

  lemma TagChars(f: Field)
    ensures forall i :: 0 <= i < |Tag(f)| ==> TagChar(Tag(f)[i])
  {
  }

  /** A key character folds to at most one key character. */
  lemma FoldCharUnique(c: char, x: char, y: char)
    requires TagChar(x) && TagChar(y) && Json.FoldChar(c, x) && Json.FoldChar(c, y)
    ensures x == y
  {
  }

  /** No key folds to two different tags, so the case-insensitive match is never ambiguous. */
  lemma FoldDistinct(key: string)
    ensures forall f, g :: Json.FoldEq(key, Tag(f)) && Json.FoldEq(key, Tag(g)) ==> f == g
  {
    forall f, g | Json.FoldEq(key, Tag(f)) && Json.FoldEq(key, Tag(g)) ensures f == g {
      TagChars(f);
      TagChars(g);
      forall i | 0 <= i < |key| ensures Tag(f)[i] == Tag(g)[i] {
        FoldCharUnique(key[i], Tag(f)[i], Tag(g)[i]);
      }
      TagInjective(f, g);
    }
  }

  /** The members of the object applied to the record in order: a later duplicate wins,
      `null` leaves a field as it is, unknown keys are skipped, and any other value for a
      known key is a type error. */
  function Apply(s: Stuff, ms: seq<(string, Json.Value)>): Result<Stuff, DecodeError>
    decreases |ms|
  {
    if ms == [] then Ok(s)
    else
      var (k, v) := ms[0];
      match FieldOf(k)
      case None => Apply(s, ms[1..])
      case Some(f) =>
        match v
        case Str(x) => Apply(Set(s, f, x), ms[1..])
        case Null => Apply(s, ms[1..])
        case _ => Err(TypeError)
  }

  /** `json.Unmarshal` into a fresh record: `null` leaves it empty, an object fills it. */
  function Unmarshal(v: Json.Value): Result<Stuff, DecodeError> {
    match v
    case Null => Ok(Empty)
    case Obj(ms) => Apply(Empty, ms)
    case _ => Err(TypeError)
  }

  /** `From`: base64 decoding, then JSON decoding of the bytes. */
  function From(encoded: string): Result<Stuff, DecodeError> {
    match Base64.Decode(encoded)
    case None => Err(IllegalBase64)
    case Some(bytes) =>
      match Json.Parse(Utf8.Decode(bytes))
      case None => Err(SyntaxError)
      case Some(v) => Unmarshal(v)
  }

  // ---------------------------------------------------------------------------
  // The nesting escape

  predicate IsSep(c: char) {
    c == '/' || c == '.'
  }

  /** What follows the maximal run of non-separators at the front of `s`. */
  function DropRun(s: string): (r: string)
    ensures |r| <= |s|
    ensures s != [] && !IsSep(s[0]) ==> |r| < |s|
  {
    if s == [] || IsSep(s[0]) then s else DropRun(s[1..])
  }

  /** The regular-expression replacement of every maximal match of `[^/.]+` by `..`. */
  function Escape(s: string): (r: string)
    decreases |s|
  {
    if s == [] then []
    else if IsSep(s[0]) then [s[0]] + Escape(s[1..])
    else ".." + Escape(DropRun(s))
  }

  /** `NestingEscape`. */
  function NestingEscape(s: Stuff): string {
    if s.nestedDirectory == "" then "" else Escape(s.nestedDirectory)
  }

  function Count(s: string, c: char): nat {
    if s == [] then 0 else (if s[0] == c then 1 else 0) + Count(s[1..], c)
  }

  lemma {:induction false} CountAppend(a: string, b: string, c: char)
    ensures Count(a + b, c) == Count(a, c) + Count(b, c)
  {
    if a != [] {
      assert (a + b)[1..] == a[1..] + b;
      CountAppend(a[1..], b, c);
    } else {
      assert a + b == b;
    }
  }

  lemma {:induction false} CountDropRun(s: string)
    ensures Count(s, '/') == Count(DropRun(s), '/')
    decreases |s|
  {
    if s != [] && !IsSep(s[0]) {
      CountDropRun(s[1..]);
    }
  }

  /** The escape writes only separators, and exactly as many slashes as it reads. */
  lemma {:induction false} EscapeShape(s: string)
    ensures forall i :: 0 <= i < |Escape(s)| ==> IsSep(Escape(s)[i])
    ensures Count(Escape(s), '/') == Count(s, '/')
    decreases |s|
  {
    if s != [] {
      if IsSep(s[0]) {
        EscapeShape(s[1..]);
        CountAppend([s[0]], Escape(s[1..]), '/');
      } else {
        EscapeShape(DropRun(s));
        CountAppend("..", Escape(DropRun(s)), '/');
        CountDropRun(s);
      }
    }
  }

  /** A text of separators only is left unchanged. */
  lemma {:induction false} EscapeSeparators(s: string)
    requires forall i :: 0 <= i < |s| ==> IsSep(s[i])
    ensures Escape(s) == s
  {
    if s != [] {
      EscapeSeparators(s[1..]);
      assert s == [s[0]] + s[1..];
    }
  }

  /** The escape is idempotent. */
  lemma EscapeIdempotent(s: string)
    ensures Escape(Escape(s)) == Escape(s)
  {
    EscapeShape(s);
    EscapeSeparators(Escape(s));
  }

  lemma {:induction false} DropRunSep(a: string, c: char, b: string)
    requires IsSep(c)
    ensures DropRun(a + [c] + b) == DropRun(a) + [c] + b
    decreases |a|
  {
    if a == [] {
      assert a + [c] + b == [c] + b;
    } else {
      assert (a + [c] + b)[0] == a[0] && (a + [c] + b)[1..] == a[1..] + [c] + b;
      if !IsSep(a[0]) {
        DropRunSep(a[1..], c, b);
      }
    }
  }

  /** Escaping works separator by separator. */
  lemma {:induction false} EscapeAtSep(a: string, c: char, b: string)
    requires IsSep(c)
    ensures Escape(a + [c] + b) == Escape(a) + [c] + Escape(b)
    decreases |a|
  {
    var s := a + [c] + b;
    if a == [] {
      assert s == [c] + b && s[1..] == b;
    } else if IsSep(a[0]) {
      assert s[0] == a[0] && s[1..] == a[1..] + [c] + b;
      EscapeAtSep(a[1..], c, b);
    } else {
      assert s[0] == a[0];
      DropRunSep(a, c, b);
      EscapeAtSep(DropRun(a), c, b);
    }
  }

  /** A run of non-separators becomes exactly `..`. */
  lemma EscapeRun(w: string)
    requires w != [] && forall i :: 0 <= i < |w| ==> !IsSep(w[i])
    ensures Escape(w) == ".."
  {
    DropRunAll(w);
  }

  lemma {:induction false} DropRunAll(w: string)
    requires forall i :: 0 <= i < |w| ==> !IsSep(w[i])
    ensures DropRun(w) == []
  {
    if w != [] {
      DropRunAll(w[1..]);
    }
  }

  /** A path of dot-free components escapes to one `..` per component. */
  lemma {:induction false} EscapeComponents(cs: seq<string>)
    requires |cs| > 0
    requires forall i :: 0 <= i < |cs| ==> cs[i] != [] && forall j :: 0 <= j < |cs[i]| ==> !IsSep(cs[i][j])
    ensures Escape(JoinWith(cs, "/")) == JoinWith(Paths.DotDots(|cs|), "/")
  {
    EscapeRun(cs[0]);
    if |cs| > 1 {
      EscapeComponents(cs[1..]);
      EscapeAtSep(cs[0], '/', JoinWith(cs[1..], "/"));
      var dd := Paths.DotDots(|cs|);
      assert dd[1..] == Paths.DotDots(|cs| - 1);
    }
  }

  /** A dot is a separator in its own right: `a.b` escapes to five dots. */
  lemma EscapeDotted()
    ensures Escape("a.b") == "....."
  {
    assert "a.b" == "a" + ['.'] + "b";
    EscapeAtSep("a", '.', "b");
    EscapeRun("a");
    EscapeRun("b");
  }

  lemma EscapeTwoComponents()
    ensures Escape("gen/entrypoint") == "../.."
  {
    var cs := ["gen", "entrypoint"];
    assert forall i :: 0 <= i < |cs| ==> cs[i] != [] && forall j :: 0 <= j < |cs[i]| ==> !IsSep(cs[i][j]);
    EscapeComponents(cs);
    assert cs[1..] == ["entrypoint"];
    assert JoinWith(cs, "/") == "gen/entrypoint";
    var dd := Paths.DotDots(2);
    assert dd == ["..", ".."] && dd[1..] == [".."];
    assert JoinWith(dd, "/") == "../..";
  }

  /** An empty nested directory needs no escape. */
  lemma NestingEscapeEmpty(s: Stuff)
    ensures s.nestedDirectory == "" <==> NestingEscape(s) == ""
  {
    if s.nestedDirectory != "" {
      var d := s.nestedDirectory;
      if IsSep(d[0]) {
        assert Escape(d)[0] == d[0];
      } else {
        assert Escape(d)[..2] == "..";
      }
    }
  }

  // ---------------------------------------------------------------------------
  // The round trip

  /** Every key the marshaller writes selects its own field. */
  lemma FieldOfTag(f: Field)
    ensures FieldOf(Tag(f)) == Some(f)
  {
  }

  /** The members written for `fs` fill exactly those fields of a record in which they are still empty. */
  lemma {:induction false} ApplyMembers(s: Stuff, t: Stuff, fs: seq<Field>)
    requires forall i, j :: 0 <= i < j < |fs| ==> fs[i] != fs[j]
    requires forall i :: 0 <= i < |fs| ==> Get(t, fs[i]) == ""
    requires forall g :: g !in fs ==> Get(t, g) == Get(s, g)
    ensures Apply(t, Json.Strs(MembersOf(s, fs))) == Ok(s)
    decreases |fs|
  {
    if fs == [] {
      forall g ensures Get(t, g) == Get(s, g) {}
      StuffExtensional(t, s);
    } else {
      var f := fs[0];
      var rest := MembersOf(s, fs[1..]);
      var t' := Set(t, f, Get(s, f));
      forall g | g !in fs[1..] ensures Get(t', g) == Get(s, g) {
        if g != f { assert g !in fs; }
      }
      forall i | 0 <= i < |fs[1..]| ensures Get(t', fs[1..][i]) == "" {
        assert fs[1..][i] == fs[i + 1] != fs[0];
      }
      ApplyMembers(s, t', fs[1..]);
      if OmitEmpty(f) && Get(s, f) == "" {
        assert t' == t by {
          forall g ensures Get(t', g) == Get(t, g) {}
          StuffExtensional(t', t);
        }
      } else {
        FieldOfTag(f);
        assert Json.Strs(MembersOf(s, fs)) == [(Tag(f), Json.Str(Get(s, f)))] + Json.Strs(rest);
        assert Json.Strs(MembersOf(s, fs))[1..] == Json.Strs(rest);
      }
    }
  }

  lemma FieldsDistinct()
    ensures forall i, j :: 0 <= i < j < |Fields| ==> Fields[i] != Fields[j]
    ensures forall g :: g in Fields
  {
    forall g ensures g in Fields {
      match g
      case Name => assert Fields[0] == g;
      case Base => assert Fields[1] == g;
      case GenDir => assert Fields[2] == g;
      case MethodsDir => assert Fields[3] == g;
      case Service => assert Fields[4] == g;
      case Method => assert Fields[5] == g;
      case NestedDirectory => assert Fields[6] == g;
      case Domain => assert Fields[7] == g;
      case Namespace => assert Fields[8] == g;
    }
  }

  /** The base64 and UTF-8 layers give back the JSON text the record was marshalled to. */
  lemma FromText(t: string)
    ensures From(Base64.Encode(Utf8.Encode(t))) ==
      match Json.Parse(t) case None => Err(SyntaxError) case Some(v) => Unmarshal(v)
  {
    Base64.DecodeEncode(Utf8.Encode(t));
    Utf8.DecodeEncode(t);
  }

  lemma UnmarshalMembers(s: Stuff)
    ensures Apply(Empty, Json.Strs(MembersOf(s, Fields))) == Ok(s)
  {
    FieldsDistinct();
    forall i | 0 <= i < |Fields| ensures Get(Empty, Fields[i]) == "" {}
    ApplyMembers(s, Empty, Fields);
  }

  /** `From` inverts `Encode`: every field comes back, the omitted empty ones as "". */
  lemma FromEncode(s: Stuff)
    ensures From(Encode(s)) == Ok(s)
  {
    UnmarshalMembers(s);
    FromMembers(s, MembersOf(s, Fields));
  }

  /** The text of members that fill a fresh record decodes to that record. */
  lemma FromMembers(s: Stuff, ms: seq<(string, string)>)
    requires Apply(Empty, Json.Strs(ms)) == Ok(s)
    ensures From(Base64.Encode(Utf8.Encode(Json.ObjectText(ms)))) == Ok(s)
  {
    FromText(Json.ObjectText(ms));
    Json.ParseObjectText(ms);
  }

  /** Keys are matched up to case, including the two non-ASCII letters that fold to `s` and `k`. */
  lemma FieldOfUpperCase()
    ensures FieldOf("NAME") == Some(Name)
  {
    var k := "NAME";
    assert k[0] == 'N' && k[1] == 'A' && k[2] == 'M' && k[3] == 'E';
    assert Json.FoldEq(k, "name");
    assert FoldField(k, Fields) == Some(Name);
  }

  lemma FieldOfLongS()
    ensures FieldOf([Json.LongS] + "ervice") == Some(Service)
  {
    var k := [Json.LongS] + "ervice";
    assert k[0] == Json.LongS && k[1..] == "ervice";
    assert |k| == 7;
    assert !Json.FoldChar(k[0], 'g') && !Json.FoldChar(k[0], 'm') && !Json.FoldChar(k[0], 'n');
    assert !Json.FoldEq(k, "gen_dir");
    assert Json.FoldEq(k, "service");
    var f1 := Fields[1..];
    var f2 := f1[1..];
    var f3 := f2[1..];
    var f4 := f3[1..];
    assert f4 == [Service, Method, NestedDirectory, Domain, Namespace];
    assert FoldField(k, f4) == Some(Service);
    assert FoldField(k, f3) == Some(Service);
    assert FoldField(k, f2) == Some(Service);
    assert FoldField(k, f1) == Some(Service);
    assert FoldField(k, Fields) == Some(Service);
    assert k != "service";
  }

  /** A key that matches no field is ignored. */
  lemma FieldOfUnknown()
    ensures FieldOf("names") == None
  {
    forall f ensures !Json.FoldEq("names", Tag(f)) {
      assert |Tag(f)| != 5;
    }
    var fs := Fields;
    assert FoldField("names", fs[1..][1..][1..][1..][1..][1..][1..][1..][1..]) == None;
  }

  /** Malformed base64 is reported before any JSON is looked at. */
  lemma FromIllegalBase64(e: string)
    requires Base64.Decode(e) == None
    ensures From(e) == Err(IllegalBase64)
  {
  }

  /** Base64 that decodes to bytes which are not a JSON text is a syntax error. */
  lemma FromNotJson(e: string)
    requires Base64.Decode(e).Some? && Json.Parse(Utf8.Decode(Base64.Decode(e).value)).None?
    ensures From(e) == Err(SyntaxError)
  {
  }

  /** A JSON text that is neither an object nor `null` (a string, a number, `true`, `false`
      or an array) does not fit the record. */
  lemma FromNonObject(e: string)
    requires Base64.Decode(e).Some?
    requires var v := Json.Parse(Utf8.Decode(Base64.Decode(e).value)); v.Some? && !v.value.Obj? && !v.value.Null?
    ensures From(e) == Err(TypeError)
  {
  }

  /** The JSON text `null` decodes to the empty record; anything but an object or `null` is refused. */
  lemma FromNullText()
    ensures From(Base64.Encode(Utf8.Encode("null"))) == Ok(Empty)
  {
    Json.ParseValueNull("");
    assert "null" + "" == "null";
    Json.ParseWhole("null", Json.Null);
    FromText("null");
  }

  lemma FromStringText()
    ensures From(Base64.Encode(Utf8.Encode("\"x\""))) == Err(TypeError)
  {
    var s := "\"x\"";
    assert Json.EscapeAll("x") == "x" by {
      assert Json.EscapeAll("x") == Json.EscapeChar('x') + Json.EscapeAll("");
    }
    assert Json.Quote("x") + "" == s;
    Json.ParseValueQuoted("x", "");
    Json.ParseWhole(s, Json.Str("x"));
    FromText(s);
  }

  lemma FromTruncatedText()
    ensures From(Base64.Encode(Utf8.Encode("{"))) == Err(SyntaxError)
  {
    FromText("{");
    assert "{"[1..] == "";
    assert Json.Parse("{") == None;
  }

  /** A later duplicate key wins, and `null` keeps the earlier value. */
  lemma ApplyLastWins(s: Stuff, x: string, y: string)
    ensures Apply(s, [("name", Json.Str(x)), ("name", Json.Str(y))]) == Ok(s.(name := y))
    ensures Apply(s, [("name", Json.Str(x)), ("name", Json.Null)]) == Ok(s.(name := x))
  {
    assert FieldOf("name") == Some(Name);
    var a := [("name", Json.Str(x)), ("name", Json.Str(y))];
    assert a[1..] == [("name", Json.Str(y))] && a[1..][1..] == [];
    assert Apply(s, a) == Apply(Set(s, Name, x), a[1..]);
    assert Apply(Set(s, Name, x), a[1..]) == Apply(Set(Set(s, Name, x), Name, y), []);
    var b := [("name", Json.Str(x)), ("name", Json.Null)];
    assert b[1..] == [("name", Json.Null)] && b[1..][1..] == [];
    assert Apply(s, b) == Apply(Set(s, Name, x), b[1..]);
    assert Apply(Set(s, Name, x), b[1..]) == Apply(Set(s, Name, x), []);
  }
}
