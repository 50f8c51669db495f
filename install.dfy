/** `pkg/install`: the protoc command line a backend writes into a `//go:generate` directive. */
module Install {
  import opened Wrappers
  import opened Text
  import Paths
  import Parameter

  /** The install locations of protoc, of the korpc protos and of the two plugins; the
      backends only pass them through. */
  datatype Toolchain = Toolchain(
    protocBinary: string,
    protocInclude: string,
    korpcInclude: string,
    korpcPath: string,
    protocGenGoPath: string)

  /** The inverse of a relative directory, by the nesting escape. */
  function Invert(p: string): string {
    Parameter.NestingEscape(Parameter.Empty.(nestedDirectory := p))
  }

  /** `toroot`: from the directory protoc writes `out` into, back to the root of the protos. */
  function ToRoot(out: string, param: Parameter.Stuff): string {
    Invert(Paths.Join([param.nestedDirectory, Invert(out)]))
  }

  function Header(tc: Toolchain, out: string, plugin: string, param: Parameter.Stuff): seq<string> {
    [ "-I" + tc.protocInclude,
      "-I" + tc.korpcInclude,
      "-I" + ToRoot(out, param),
      "--plugin=protoc-gen-" + param.name + "=" + plugin ]
  }

  /** The output flags: korpc gets its output directory and the encoded parameter
      (checked first), protoc-gen-go its output directory with the grpc plugin, any other
      plugin neither. */
  function OutputFlags(tc: Toolchain, out: string, plugin: string, param: Parameter.Stuff): seq<string> {
    if plugin == tc.korpcPath then
      ["--" + param.name + "_out=" + out, "--" + param.name + "_opt=" + Parameter.MustEncode(param)]
    else if plugin == tc.protocGenGoPath then
      ["--" + param.name + "_out=plugins=grpc:" + out]
    else []
  }

  function ProtoCArgs(tc: Toolchain, out: string, plugin: string, param: Parameter.Stuff, protos: seq<string>): seq<string> {
    Header(tc, out, plugin, param) + OutputFlags(tc, out, plugin, param) + protos
  }

  /** `ProtoCCmd`: the binary to run and its arguments, built up as the Go code appends them. */
  method ProtoCCmd(tc: Toolchain, out: string, plugin: string, param: Parameter.Stuff, protos: seq<string>)
    returns (binary: string, args: seq<string>)
    ensures binary == tc.protocBinary
    ensures args == ProtoCArgs(tc, out, plugin, param, protos)
  {
    args := [
      "-I" + tc.protocInclude,
      "-I" + tc.korpcInclude,
      "-I" + ToRoot(out, param),
      "--plugin=protoc-gen-" + param.name + "=" + plugin
    ];
    if plugin == tc.korpcPath {
      args := args + ["--" + param.name + "_out=" + out, "--" + param.name + "_opt=" + Parameter.MustEncode(param)];
    } else if plugin == tc.protocGenGoPath {
      args := args + ["--" + param.name + "_out=plugins=grpc:" + out];
    }
    args := args + protos;
    binary := tc.protocBinary;
  }

  // ---------------------------------------------------------------------------
  // Properties

  /** The layout of the arguments: four include and plugin flags, the output flags of the
      plugin, the protos last; and korpc's `_opt` value decodes to the very parameter passed. */
  lemma ProtoCArgsShape(tc: Toolchain, out: string, plugin: string, param: Parameter.Stuff, protos: seq<string>)
    ensures var args := ProtoCArgs(tc, out, plugin, param, protos);
      var extra := if plugin == tc.korpcPath then 2 else if plugin == tc.protocGenGoPath then 1 else 0;
      && |args| == 4 + extra + |protos|
      && args[0] == "-I" + tc.protocInclude
      && args[1] == "-I" + tc.korpcInclude
      && args[2] == "-I" + ToRoot(out, param)
      && args[3] == "--plugin=protoc-gen-" + param.name + "=" + plugin
      && args[4 + extra..] == protos
      && (plugin == tc.korpcPath ==>
            && args[4] == "--" + param.name + "_out=" + out
            && args[5][..|param.name| + 7] == "--" + param.name + "_opt="
            && Parameter.From(args[5][|param.name| + 7..]) == Ok(param))
      && (plugin != tc.korpcPath && plugin == tc.protocGenGoPath ==>
            args[4] == "--" + param.name + "_out=plugins=grpc:" + out)
  {
    var args := ProtoCArgs(tc, out, plugin, param, protos);
    var h := Header(tc, out, plugin, param);
    var o := OutputFlags(tc, out, plugin, param);
    assert args[|h| + |o|..] == protos;
    if plugin == tc.korpcPath {
      var e := Parameter.MustEncode(param);
      var flag := "--" + param.name + "_opt=";
      assert args[5] == flag + e;
      assert |flag| == |param.name| + 7;
      assert (flag + e)[|flag|..] == e;
      Parameter.FromEncode(param);
    }
  }

  /** The arguments of a korpc invocation: six flags, then the protos; the `_opt` value
      decodes to the parameter passed. */
  lemma KorpcArgs(tc: Toolchain, out: string, param: Parameter.Stuff, protos: seq<string>)
    ensures var args := ProtoCArgs(tc, out, tc.korpcPath, param, protos);
      && |args| == 6 + |protos|
      && args[4] == "--" + param.name + "_out=" + out
      && args[5][..|param.name| + 7] == "--" + param.name + "_opt="
      && Parameter.From(args[5][|param.name| + 7..]) == Ok(param)
      && args[6..] == protos
  {
    ProtoCArgsShape(tc, out, tc.korpcPath, param, protos);
  }

  /** The third argument is the include path back to the root. */
  lemma ProtoCArgsRoot(tc: Toolchain, out: string, plugin: string, param: Parameter.Stuff, protos: seq<string>)
    ensures |ProtoCArgs(tc, out, plugin, param, protos)| > 2
    ensures ProtoCArgs(tc, out, plugin, param, protos)[2] == "-I" + ToRoot(out, param)
  {
  }

  /** A path component that the escape turns into exactly one `..`. */
  predicate DotFree(c: string) {
    c != "" && forall i :: 0 <= i < |c| ==> c[i] != '/' && c[i] != '.'
  }

  lemma DotFreeSimple(cs: seq<string>)
    requires forall i :: 0 <= i < |cs| ==> DotFree(cs[i])
    ensures forall i :: 0 <= i < |cs| ==> Paths.Simple(cs[i])
    ensures forall i :: 0 <= i < |cs| ==> cs[i] != [] && forall j :: 0 <= j < |cs[i]| ==> !Parameter.IsSep(cs[i][j])
  {
    forall i | 0 <= i < |cs| ensures Paths.Simple(cs[i]) {
      var c := cs[i];
      assert c[0] != '.';
      assert '/' !in c by {
        forall k | 0 <= k < |c| ensures c[k] != '/' {}
      }
    }
  }

  /** Inverting a path of dot-free components gives one `..` per component; inverting
      `.` gives `.`. */
  lemma InvertComponents(cs: seq<string>)
    requires forall i :: 0 <= i < |cs| ==> DotFree(cs[i])
    ensures Invert(JoinWith(cs, "/")) == if cs == [] then "" else JoinWith(Paths.DotDots(|cs|), "/")
    ensures Invert(".") == "."
  {
    if cs != [] {
      DotFreeSimple(cs);
      Paths.JoinWithHead(cs, "/");
      Parameter.EscapeComponents(cs);
    }
    assert Parameter.Escape(".") == ['.'] + Parameter.Escape("");
  }

  /** The root seen from `out`: when the nested directory is `out` below a directory `cs`,
      `toroot` climbs out of `cs` with one `..` per component (`.` when `cs` is empty). */
  lemma ToRootNested(cs: seq<string>, os: seq<string>, param: Parameter.Stuff)
    requires forall i :: 0 <= i < |cs| ==> DotFree(cs[i])
    requires forall i :: 0 <= i < |os| ==> DotFree(os[i])
    requires |os| > 0
    requires param.nestedDirectory == JoinWith(cs + os, "/")
    ensures ToRoot(JoinWith(os, "/"), param) == if cs == [] then "." else JoinWith(Paths.DotDots(|cs|), "/")
  {
    var all := cs + os;
    assert forall i :: 0 <= i < |all| ==> DotFree(all[i]);
    DotFreeSimple(cs);
    DotFreeSimple(os);
    InvertComponents(os);
    InvertComponents(cs);
    var dd := JoinWith(Paths.DotDots(|os|), "/");
    Paths.JoinWithHead(all, "/");
    var nested := param.nestedDirectory;
    assert Paths.Join([nested, dd]) == Paths.Clean(JoinWith([nested, dd], "/"));
    Text.JoinWithAppend(all, Paths.DotDots(|os|), "/");
    assert JoinWith([nested, dd], "/") == JoinWith(all + Paths.DotDots(|os|), "/");
    Paths.CleanWalkBack(cs, os);
  }

  /** The root seen from `.`, the output directory of the `methods` and `config` commands:
      one `..` per component of the nested directory. */
  lemma ToRootHere(cs: seq<string>, param: Parameter.Stuff)
    requires forall i :: 0 <= i < |cs| ==> DotFree(cs[i])
    requires param.nestedDirectory == JoinWith(cs, "/")
    ensures ToRoot(".", param) == if cs == [] then "." else JoinWith(Paths.DotDots(|cs|), "/")
  {
    InvertComponents(cs);
    if cs == [] {
      assert Paths.Join(["", "."]) == Paths.Join(["."]);
      assert Paths.Clean(".") == "." by {
        Paths.SplitNoSlash(".");
      }
    } else {
      DotFreeSimple(cs);
      CleanHere(cs);
    }
  }

  /** A directory of real elements followed by `/.` cleans to itself. */
  lemma CleanHere(cs: seq<string>)
    requires cs != [] && forall i :: 0 <= i < |cs| ==> Paths.Simple(cs[i])
    ensures Paths.Join([JoinWith(cs, "/"), "."]) == JoinWith(cs, "/")
  {
    JoinDot(cs);
    CleanDotted(cs);
  }

  /** Joining `.` onto a directory appends the component `.`. */
  lemma JoinDot(cs: seq<string>)
    requires cs != [] && forall i :: 0 <= i < |cs| ==> Paths.Simple(cs[i])
    ensures Paths.Join([JoinWith(cs, "/"), "."]) == Paths.Clean(JoinWith(cs + ["."], "/"))
  {
    var d := JoinWith(cs, "/");
    assert JoinWith(cs + ["."], "/") == JoinWith([d, "."], "/") by {
      Text.JoinWithAppend(cs, ["."], "/");
      assert JoinWith(["."], "/") == ".";
      assert JoinWith([d, "."], "/") == d + "/" + ".";
    }
    assert d != "" by {
      assert Paths.Simple(cs[0]);
      Paths.JoinWithHead(cs, "/");
    }
    assert Paths.Join([d, "."]) == Paths.Clean(JoinWith([d, "."], "/"));
  }

  /** The component `.` after real elements cleans away. */
  lemma CleanDotted(cs: seq<string>)
    requires cs != [] && forall i :: 0 <= i < |cs| ==> Paths.Simple(cs[i])
    ensures Paths.Clean(JoinWith(cs + ["."], "/")) == JoinWith(cs, "/")
  {
    var parts := cs + ["."];
    assert parts[0] != "" && forall i :: 0 <= i < |parts| ==> '/' !in parts[i] by {
      forall i | 0 <= i < |parts| ensures '/' !in parts[i] && (i == 0 ==> parts[i] != "") {
        if i < |cs| {
          assert parts[i] == cs[i] && Paths.Simple(cs[i]);
        } else {
          assert parts[i] == ".";
        }
      }
    }
    Paths.CleanJoin(parts);
    NormalizeDot(cs);
  }

  lemma NormalizeDot(cs: seq<string>)
    requires forall i :: 0 <= i < |cs| ==> Paths.Simple(cs[i])
    ensures Paths.Normalize(false, [], cs + ["."]) == cs
  {
    Paths.NormalizeAppend(false, [], cs, ["."]);
    Paths.NormalizeSimple(cs);
    assert Paths.Normalize(false, cs, ["."]) == cs;
  }
}
