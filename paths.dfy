/** Go's `path/filepath` on a Unix host: purely lexical path processing.
    `Clean` is stated as a stack machine over the slash-separated elements:
    empty and `.` elements vanish, `..` removes the element before it when there
    is one to remove, stays at the front of a relative path, and vanishes at the
    root of an absolute one. */
module Paths {
  import opened Text

  /** `strings.Split(p, "/")`. */
  function Split(p: string): (r: seq<string>)
    ensures |r| > 0
    ensures forall i :: 0 <= i < |r| ==> '/' !in r[i]
    decreases |p|
  {
    if p == [] then [""]
    else
      var rest := Split(p[1..]);
      if p[0] == '/' then [""] + rest else [[p[0]] + rest[0]] + rest[1..]
  }

  /** A path element that survives `Clean`. */
  predicate Element(e: string) {
    e != "" && e != "." && '/' !in e
  }

  /** An element that is also not `..`: a real directory or file name. */
  predicate Simple(e: string) {
    Element(e) && e != ".."
  }

  /** What `Clean` leaves: real elements, with `..` only at the front of a relative path. */
  predicate IsNormal(rooted: bool, st: seq<string>) {
    && (forall i :: 0 <= i < |st| ==> Element(st[i]))
    && (forall i :: 0 <= i < |st| && st[i] == ".." ==> !rooted && forall j :: 0 <= j < i ==> st[j] == "..")
  }

  /** One element of the path processed against the elements kept so far. */
  function Push(rooted: bool, stack: seq<string>, e: string): seq<string> {
    if e == "" || e == "." then stack
    else if e == ".." then
      if |stack| > 0 && stack[|stack| - 1] != ".." then stack[..|stack| - 1]
      else if rooted then stack
      else stack + [".."]
    else stack + [e]
  }

  function Normalize(rooted: bool, stack: seq<string>, parts: seq<string>): seq<string>
    decreases |parts|
  {
    if parts == [] then stack else Normalize(rooted, Push(rooted, stack, parts[0]), parts[1..])
  }

  function Render(rooted: bool, stack: seq<string>): string {
    if rooted then "/" + JoinWith(stack, "/")
    else if stack == [] then "."
    else JoinWith(stack, "/")
  }

  /** `filepath.Clean`. */
  function Clean(p: string): string {
    if p == "" then "."
    else
      var rooted := p[0] == '/';
      Render(rooted, Normalize(rooted, [], Split(p)))
  }

  /** `filepath.Join`: the non-empty elements joined by slashes and cleaned; "" when all are empty. */
  function Join(elems: seq<string>): string {
    if elems == [] then ""
    else if elems[0] == "" then Join(elems[1..])
    else Clean(JoinWith(elems, "/"))
  }

  /** `p` up to and including its last slash; empty when it has none. */
  function UpToLastSlash(p: string): string
    decreases |p|
  {
    if p == [] then []
    else if p[|p| - 1] == '/' then p
    else UpToLastSlash(p[..|p| - 1])
  }

  /** `filepath.Dir`: everything but the last element, cleaned. */
  function Dir(p: string): string {
    Clean(UpToLastSlash(p))
  }

  // ---------------------------------------------------------------------------
  // Splitting and joining

  lemma {:induction false} SplitNoSlash(x: string)
    requires '/' !in x
    ensures Split(x) == [x]
    decreases |x|
  {
    if x != [] {
      SplitNoSlash(x[1..]);
      assert x == [x[0]] + x[1..];
    }
  }

  lemma {:induction false} SplitAfter(x: string, y: string)
    requires '/' !in x
    ensures Split(x + "/" + y) == [x] + Split(y)
    decreases |x|
  {
    if x == [] {
      assert x + "/" + y == "/" + y;
      assert ("/" + y)[1..] == y;
    } else {
      assert (x + "/" + y)[1..] == x[1..] + "/" + y;
      SplitAfter(x[1..], y);
      assert x == [x[0]] + x[1..];
    }
  }

  lemma {:induction false} SplitJoin(cs: seq<string>)
    requires |cs| > 0
    requires forall i :: 0 <= i < |cs| ==> '/' !in cs[i]
    ensures Split(JoinWith(cs, "/")) == cs
  {
    if |cs| == 1 {
      SplitNoSlash(cs[0]);
    } else {
      SplitJoin(cs[1..]);
      SplitAfter(cs[0], JoinWith(cs[1..], "/"));
      assert cs == [cs[0]] + cs[1..];
    }
  }

  lemma {:induction false} SplitTrailingSlash(x: string)
    ensures Split(x + "/") == Split(x) + [""]
    decreases |x|
  {
    if x == [] {
      assert x + "/" == "/";
    } else {
      assert (x + "/")[1..] == x[1..] + "/";
      SplitTrailingSlash(x[1..]);
      var rest := Split(x[1..]);
      assert rest + [""] == [rest[0]] + (rest[1..] + [""]);
    }
  }

  // ---------------------------------------------------------------------------
  // The element stack

  lemma PushNormal(rooted: bool, st: seq<string>, e: string)
    requires IsNormal(rooted, st) && '/' !in e
    ensures IsNormal(rooted, Push(rooted, st, e))
  {
    if e == ".." && !(|st| > 0 && st[|st| - 1] != "..") && !rooted {
      var r := st + [".."];
      forall i | 0 <= i < |r| && r[i] == ".." ensures forall j :: 0 <= j < i ==> r[j] == ".." {
        if i == |st| && |st| > 0 {
          assert st[|st| - 1] == "..";
        }
      }
    }
  }

  lemma {:induction false} NormalizeNormal(rooted: bool, st: seq<string>, parts: seq<string>)
    requires IsNormal(rooted, st)
    requires forall i :: 0 <= i < |parts| ==> '/' !in parts[i]
    ensures IsNormal(rooted, Normalize(rooted, st, parts))
    decreases |parts|
  {
    if parts != [] {
      PushNormal(rooted, st, parts[0]);
      NormalizeNormal(rooted, Push(rooted, st, parts[0]), parts[1..]);
    }
  }

  /** A stack that is already normal is left as it is. */
  lemma {:induction false} NormalizeFixed(rooted: bool, acc: seq<string>, st: seq<string>)
    requires IsNormal(rooted, acc + st)
    ensures Normalize(rooted, acc, st) == acc + st
    decreases |st|
  {
    if st != [] {
      var all := acc + st;
      assert all[|acc|] == st[0];
      if st[0] == ".." {
        assert forall j :: 0 <= j < |acc| ==> all[j] == acc[j];
      }
      assert Push(rooted, acc, st[0]) == acc + [st[0]];
      assert (acc + [st[0]]) + st[1..] == all;
      NormalizeFixed(rooted, acc + [st[0]], st[1..]);
    }
  }

  lemma {:induction false} NormalizeAppend(rooted: bool, acc: seq<string>, a: seq<string>, b: seq<string>)
    ensures Normalize(rooted, acc, a + b) == Normalize(rooted, Normalize(rooted, acc, a), b)
    decreases |a|
  {
    if a != [] {
      assert (a + b)[0] == a[0] && (a + b)[1..] == a[1..] + b;
      NormalizeAppend(rooted, Push(rooted, acc, a[0]), a[1..], b);
    } else {
      assert a + b == b;
    }
  }

  function DotDots(n: nat): (r: seq<string>)
    ensures |r| == n && forall i :: 0 <= i < n ==> r[i] == ".."
  {
    seq(n, i => "..")
  }

  /** One `..` per real element removes those elements again. */
  lemma {:induction false} PopSimple(x: seq<string>, os: seq<string>)
    requires forall i :: 0 <= i < |os| ==> Simple(os[i])
    ensures Normalize(false, x + os, DotDots(|os|)) == x
    decreases |os|
  {
    if os == [] {
      assert x + os == x;
    } else {
      var init := os[..|os| - 1];
      assert x + os == (x + init) + [os[|os| - 1]];
      assert Push(false, x + os, "..") == x + init;
      assert DotDots(|os|)[1..] == DotDots(|init|);
      PopSimple(x, init);
    }
  }

  // ---------------------------------------------------------------------------
  // Properties of Clean, Join and Dir

  lemma CleanNonEmpty(p: string)
    ensures Clean(p) != ""
  {
    if p != "" {
      var rooted := p[0] == '/';
      NormalizeNormal(rooted, [], Split(p));
      var st := Normalize(rooted, [], Split(p));
      if !rooted && st != [] {
        JoinWithHead(st, "/");
      }
    }
  }

  lemma JoinWithHead(cs: seq<string>, sep: string)
    requires |cs| > 0 && |cs[0]| > 0
    ensures |JoinWith(cs, sep)| > 0 && JoinWith(cs, sep)[0] == cs[0][0]
  {
  }

  lemma SimpleIsNormal(rooted: bool, cs: seq<string>)
    requires forall i :: 0 <= i < |cs| ==> Simple(cs[i])
    ensures IsNormal(rooted, cs)
  {
  }

  /** Cleaning a relative path given by its elements. */
  lemma CleanJoin(parts: seq<string>)
    requires |parts| > 0 && parts[0] != ""
    requires forall i :: 0 <= i < |parts| ==> '/' !in parts[i]
    ensures Clean(JoinWith(parts, "/")) == Render(false, Normalize(false, [], parts))
  {
    JoinWithHead(parts, "/");
    SplitJoin(parts);
  }

  /** Cleaning the rendering of a normal stack gives the same rendering back. */
  lemma RenderClean(rooted: bool, st: seq<string>)
    requires IsNormal(rooted, st)
    ensures Clean(Render(rooted, st)) == Render(rooted, st)
  {
    var q := Render(rooted, st);
    if rooted {
      assert q[0] == '/' && q[1..] == JoinWith(st, "/");
      if st == [] {
        assert q == "/";
        assert Split("") == [""];
        assert Split(q) == ["", ""];
        assert Normalize(true, [], ["", ""]) == [];
      } else {
        SplitJoin(st);
        assert Split(q) == [""] + st;
        assert [] + st == st;
        NormalizeFixed(rooted, [], st);
      }
    } else if st == [] {
      assert q == ".";
      SplitNoSlash(".");
    } else {
      CleanJoin(st);
      assert [] + st == st;
      NormalizeFixed(rooted, [], st);
    }
  }

  /** `filepath.Clean` is idempotent. */
  lemma CleanIdempotent(p: string)
    ensures Clean(Clean(p)) == Clean(p)
  {
    if p == "" {
      SplitNoSlash(".");
    } else {
      var rooted := p[0] == '/';
      NormalizeNormal(rooted, [], Split(p));
      RenderClean(rooted, Normalize(rooted, [], Split(p)));
    }
  }

  /** A path made of real elements is already clean. */
  lemma CleanSimple(cs: seq<string>)
    requires |cs| > 0 && forall i :: 0 <= i < |cs| ==> Simple(cs[i])
    ensures Clean(JoinWith(cs, "/")) == JoinWith(cs, "/")
  {
    CleanJoin(cs);
    SimpleIsNormal(false, cs);
    assert [] + cs == cs;
    NormalizeFixed(false, [], cs);
  }

  /** A trailing slash does not change the cleaned path. */
  lemma CleanTrailingSlash(a: string)
    requires a != ""
    ensures Clean(a + "/") == Clean(a)
  {
    var rooted := a[0] == '/';
    assert (a + "/")[0] == a[0];
    SplitTrailingSlash(a);
    NormalizeAppend(rooted, [], Split(a), [""]);
  }

  /** Joining two paths of real elements concatenates their elements. */
  lemma JoinSimple(cs: seq<string>, os: seq<string>)
    requires forall i :: 0 <= i < |cs| ==> Simple(cs[i])
    requires forall i :: 0 <= i < |os| ==> Simple(os[i])
    ensures Join([JoinWith(cs, "/"), JoinWith(os, "/")]) == JoinWith(cs + os, "/")
  {
    if cs == [] {
      assert cs + os == os;
      JoinSimpleAfterEmpty(os);
    } else if os == [] {
      assert cs + os == cs;
      JoinSimpleBeforeEmpty(cs);
    } else {
      JoinSimpleBoth(cs, os);
    }
  }

  lemma JoinSimpleAfterEmpty(os: seq<string>)
    requires forall i :: 0 <= i < |os| ==> Simple(os[i])
    ensures Join(["", JoinWith(os, "/")]) == JoinWith(os, "/")
  {
    var b := JoinWith(os, "/");
    assert Join(["", b]) == Join([b]) by {
      assert ["", b][1..] == [b];
    }
    if os != [] {
      JoinWithHead(os, "/");
      assert Join([b]) == Clean(JoinWith([b], "/"));
      CleanSimple(os);
    } else {
      assert Join([b]) == Join([]) by {
        assert [b][1..] == [];
      }
    }
  }

  lemma JoinSimpleBeforeEmpty(cs: seq<string>)
    requires |cs| > 0 && forall i :: 0 <= i < |cs| ==> Simple(cs[i])
    ensures Join([JoinWith(cs, "/"), ""]) == JoinWith(cs, "/")
  {
    var a := JoinWith(cs, "/");
    JoinWithHead(cs, "/");
    assert JoinWith([a, ""], "/") == a + "/";
    CleanTrailingSlash(a);
    CleanSimple(cs);
  }

  lemma JoinSimpleBoth(cs: seq<string>, os: seq<string>)
    requires |cs| > 0 && forall i :: 0 <= i < |cs| ==> Simple(cs[i])
    requires |os| > 0 && forall i :: 0 <= i < |os| ==> Simple(os[i])
    ensures Join([JoinWith(cs, "/"), JoinWith(os, "/")]) == JoinWith(cs + os, "/")
  {
    var a, b := JoinWith(cs, "/"), JoinWith(os, "/");
    JoinWithHead(cs, "/");
    JoinWithAppend(cs, os, "/");
    assert JoinWith([a, b], "/") == JoinWith(cs + os, "/");
    var all := cs + os;
    assert forall i :: 0 <= i < |all| ==> Simple(all[i]);
    CleanSimple(all);
  }

  /** Walking back out of `os` with one `..` per element lands in `cs`. */
  lemma CleanWalkBack(cs: seq<string>, os: seq<string>)
    requires forall i :: 0 <= i < |cs| ==> Simple(cs[i])
    requires forall i :: 0 <= i < |os| ==> Simple(os[i])
    requires |os| > 0
    ensures Clean(JoinWith(cs + os + DotDots(|os|), "/")) == if cs == [] then "." else JoinWith(cs, "/")
  {
    var front := cs + os;
    assert forall i :: 0 <= i < |front| ==> Simple(front[i]);
    WalkBackElements(front, |os|);
    CleanJoin(front + DotDots(|os|));
    NormalizeWalkBack(cs, os);
  }

  lemma NormalizeWalkBack(cs: seq<string>, os: seq<string>)
    requires forall i :: 0 <= i < |cs| ==> Simple(cs[i])
    requires forall i :: 0 <= i < |os| ==> Simple(os[i])
    ensures Normalize(false, [], cs + os + DotDots(|os|)) == cs
  {
    var front := cs + os;
    NormalizeAppend(false, [], front, DotDots(|os|));
    NormalizeSimple(front);
    PopSimple(cs, os);
  }

  /** Real elements are kept as they are. */
  lemma NormalizeSimple(front: seq<string>)
    requires forall i :: 0 <= i < |front| ==> Simple(front[i])
    ensures Normalize(false, [], front) == front
  {
    SimpleIsNormal(false, front);
    assert [] + front == front;
    NormalizeFixed(false, [], front);
  }

  lemma WalkBackElements(front: seq<string>, n: nat)
    requires |front| > 0 && forall i :: 0 <= i < |front| ==> Simple(front[i])
    ensures var all := front + DotDots(n);
      |all| > 0 && all[0] != "" && forall i :: 0 <= i < |all| ==> '/' !in all[i]
  {
    var all := front + DotDots(n);
    assert all[0] == front[0];
    forall i | 0 <= i < |all| ensures '/' !in all[i] {
      if i >= |front| { assert all[i] == ".."; }
    }
  }

  /** The directory of a name without slashes is `.`. */
  lemma DirNoSlash(p: string)
    requires '/' !in p
    ensures Dir(p) == "."
    decreases |p|
  {
    if p != [] {
      assert '/' !in p[..|p| - 1];
      DirNoSlash(p[..|p| - 1]);
    }
  }

  /** The directory of `d/f` is `d`, cleaned. */
  lemma {:induction false} DirOfChild(d: string, f: string)
    requires d != "" && '/' !in f
    ensures Dir(d + "/" + f) == Clean(d)
  {
    UpToLastSlashChild(d + "/", f);
    CleanTrailingSlash(d);
  }

  lemma {:induction false} UpToLastSlashChild(d: string, f: string)
    requires '/' !in f && |d| > 0 && d[|d| - 1] == '/'
    ensures UpToLastSlash(d + f) == d
    decreases |f|
  {
    if f == [] {
      assert d + f == d;
    } else {
      assert (d + f)[..|d + f| - 1] == d + f[..|f| - 1];
      UpToLastSlashChild(d, f[..|f| - 1]);
    }
  }
}
