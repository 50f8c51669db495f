/** `pkg/protoplugin/config/template.go`: the Knative `Service` manifest of one method,
    rendered line by line. The three optional settings are `if ne` conditionals that leave
    an indented blank line when they are off; the environment and the resource maps are
    `range`s, the maps in key order. */
module ConfigTemplate {
  import opened Wrappers
  import opened Text
  import opened Descriptor

  /** The `options` the template is executed with. */
  datatype Options = Options(name: string, namespace: string, gatewayPath: string, methodLower: string, options: KorpcOptions)

  /** `{{if ne zero value}}key: value{{end}}` on a line of its own. */
  function Optional(on: bool, key: string, value: string): string {
    "      " + if on then key + ": " + value else ""
  }

  function ProbeCommand(methodLower: string): string {
    "            command: [\"/ko-app/" + methodLower + "\", \"probe\"]"
  }

  /** The 8 lines naming the manifest. */
  function Metadata(opt: Options): seq<string> {
    [ "apiVersion: serving.knative.dev/v1alpha1",
      "kind: Service",
      "metadata:",
      "  name: " + opt.name,
      "  namespace: " + opt.namespace,
      "spec:",
      "  template:",
      "    spec:" ]
  }

  /** The three optional settings of the revision template. */
  function Settings(o: KorpcOptions): seq<string> {
    [ Optional(o.serviceAccount != "", "serviceAccountName", o.serviceAccount),
      Optional(o.containerConcurrency != 0, "containerConcurrency", IntToString(o.containerConcurrency)),
      Optional(o.timeoutSeconds != 0, "timeoutSeconds", IntToString(o.timeoutSeconds)) ]
  }

  /** The 12 lines of the container up to `env:`. */
  function Container(opt: Options): seq<string> {
    [ "      containers:",
      "      - image: " + opt.gatewayPath,
      "        ports:",
      "        - name: h2c",
      "          containerPort: 8080",
      "        readinessProbe:",
      "          exec:",
      ProbeCommand(opt.methodLower),
      "        livenessProbe:",
      "          exec:",
      ProbeCommand(opt.methodLower),
      "        env:" ]
  }

  /** Two lines per variable, in order. */
  function EnvLines(env: seq<EnvVar>): seq<string> {
    if env == [] then []
    else EnvLines(env[..|env| - 1]) + ["        - name: " + env[|env| - 1].name, "          value: " + env[|env| - 1].value]
  }

  /** One `key: value` line per key of `ks`. */
  function EntryLines(ks: seq<string>, m: map<string, string>): seq<string>
    requires forall k :: k in ks ==> k in m
  {
    if ks == [] then []
    else EntryLines(ks[..|ks| - 1], m) + ["            " + ks[|ks| - 1] + ": " + m[ks[|ks| - 1]]]
  }

  /** `GetResources.GetLimits` and `GetResources.GetRequests`: empty without resources. */
  function Limits(o: KorpcOptions): map<string, string> {
    match o.resources
    case None => map[]
    case Some(r) => r.limits
  }

  function Requests(o: KorpcOptions): map<string, string> {
    match o.resources
    case None => map[]
    case Some(r) => r.requests
  }

  function MapLines(m: map<string, string>): seq<string> {
    EntryLines(SortedKeys(m.Keys), m)
  }

  /** The manifest's lines, section by section. */
  function Lines(opt: Options): seq<string> {
    Metadata(opt) + Settings(opt.options) + Container(opt) + Body(opt.options)
  }

  /** The lines after `env:`: the variables, then the resources. */
  function Body(o: KorpcOptions): seq<string> {
    EnvLines(o.env) + Resources(o)
  }

  /** The limits in key order, then the requests in key order. */
  function Resources(o: KorpcOptions): seq<string> {
    ["        resources:", "          limits:"] + MapLines(Limits(o)) + ["          requests:"] + MapLines(Requests(o))
  }

  /** The manifest: every line ends in a newline. */
  function Render(opt: Options): string {
    Unlines(Lines(opt))
  }

  // ---------------------------------------------------------------------------
  // Properties

  /** Where each section sits: 8 lines of metadata, the 3 settings, 12 lines of container,
      then the environment and the resources. */
  lemma LinesLayout(opt: Options)
    ensures var l := Lines(opt); var o := opt.options;
      && |l| == 23 + |Body(o)|
      && l[..8] == Metadata(opt) && l[8..11] == Settings(o) && l[11..23] == Container(opt)
      && l[23..] == Body(o)
  {
    MetadataLines(opt);
    SettingsLength(opt.options);
    ContainerLines(opt);
    Concat4(Metadata(opt), Settings(opt.options), Container(opt), Body(opt.options));
  }

  /** The manifest's name and namespace. */
  lemma MetadataLines(opt: Options)
    ensures var m := Metadata(opt);
      && |m| == 8
      && m[3] == "  name: " + opt.name
      && m[4] == "  namespace: " + opt.namespace
  {
  }

  /** The image is the gateway path, and both probes run the binary with `probe`. */
  lemma ContainerLines(opt: Options)
    ensures var c := Container(opt);
      && |c| == 12
      && c[1] == "      - image: " + opt.gatewayPath
      && c[7] == c[10] == ProbeCommand(opt.methodLower)
  {
  }

  lemma SettingsLength(o: KorpcOptions)
    ensures |Settings(o)| == 3
  {
  }

  /** `serviceAccountName` appears exactly when the service account is set. */
  lemma ServiceAccountLine(o: KorpcOptions)
    ensures var l := Settings(o); var sa := o.serviceAccount;
      && |l| == 3
      && (sa == "" <==> l[0] == "      ")
      && (sa != "" ==> l[0] == "      " + "serviceAccountName" + ": " + sa)
  {
    OptionalBlank(o.serviceAccount != "", "serviceAccountName", o.serviceAccount);
  }

  /** `containerConcurrency` appears exactly when it is not zero. */
  lemma ConcurrencyLine(o: KorpcOptions)
    ensures var l := Settings(o); var cc := o.containerConcurrency;
      && |l| == 3
      && (cc == 0 <==> l[1] == "      ")
      && (cc != 0 ==> l[1] == "      " + "containerConcurrency" + ": " + IntToString(cc))
  {
    OptionalBlank(o.containerConcurrency != 0, "containerConcurrency", IntToString(o.containerConcurrency));
  }

  /** `timeoutSeconds` appears exactly when it is not zero. */
  lemma TimeoutLine(o: KorpcOptions)
    ensures var l := Settings(o); var ts := o.timeoutSeconds;
      && |l| == 3
      && (ts == 0 <==> l[2] == "      ")
      && (ts != 0 ==> l[2] == "      " + "timeoutSeconds" + ": " + IntToString(ts))
  {
    OptionalBlank(o.timeoutSeconds != 0, "timeoutSeconds", IntToString(o.timeoutSeconds));
  }

  /** An optional setting leaves the bare indentation exactly when it is off. */
  lemma OptionalBlank(on: bool, key: string, value: string)
    requires key != []
    ensures Optional(on, key, value) == "      " <==> !on
  {
    if on {
      assert |Optional(on, key, value)| > 6;
    }
  }

  /** A timeout of 30 seconds is written out in decimal. */
  lemma TimeoutExample(o: KorpcOptions)
    requires o.timeoutSeconds == 30
    ensures Settings(o)[2] == "      " + "timeoutSeconds" + ": " + "30"
  {
    TimeoutLine(o);
    IntToString30();
  }

  lemma IntToString30()
    ensures IntToString(30) == "30"
  {
    assert NatToString(30) == NatToString(3) + [DecimalDigit(0)];
  }

  /** Variable `n` of the environment owns lines `2n` and `2n + 1` of the body. */
  lemma EnvEntries(o: KorpcOptions, n: nat)
    requires n < |o.env|
    ensures var b := Body(o); var e := o.env[n];
      && 2 * n + 1 < |b|
      && b[2 * n] == "        - name: " + e.name
      && b[2 * n + 1] == "          value: " + e.value
  {
    EnvLinesIndex(o.env);
  }

  /** After the environment come the resources. */
  lemma BodyLayout(o: KorpcOptions)
    ensures |Body(o)| == 2 * |o.env| + |Resources(o)|
    ensures Body(o)[2 * |o.env|..] == Resources(o)
  {
    EnvLinesIndex(o.env);
  }

  /** The limits in key order under `limits:`, then the requests in key order under
      `requests:`. */
  lemma ResourceEntries(o: KorpcOptions)
    ensures var r := Resources(o); var lim := Limits(o); var req := Requests(o);
      && |r| == 3 + |lim| + |req|
      && r[..2] == ["        resources:", "          limits:"]
      && r[2..2 + |lim|] == MapLines(lim)
      && r[2 + |lim|] == "          requests:"
      && r[3 + |lim|..] == MapLines(req)
  {
    var lim, req := Limits(o), Requests(o);
    MapLinesIndex(lim);
    MapLinesIndex(req);
    var h, q := ["        resources:", "          limits:"], ["          requests:"];
    Concat4(h, MapLines(lim), q, MapLines(req));
    assert Resources(o)[2 + |lim|..3 + |lim|] == q;
  }

  /** Without resources there is not a single limit or request line. */
  lemma NoResources(o: KorpcOptions)
    requires o.resources.None?
    ensures Resources(o) == ["        resources:", "          limits:", "          requests:"]
  {
    assert MapLines(map[]) == [];
  }

  /** One line per entry of the map, in key order. */
  lemma MapLinesIndex(m: map<string, string>)
    ensures var ks := SortedKeys(m.Keys);
      && |MapLines(m)| == |m|
      && forall n :: 0 <= n < |m| ==> MapLines(m)[n] == "            " + ks[n] + ": " + m[ks[n]]
  {
    EntryLinesIndex(SortedKeys(m.Keys), m);
  }

  /** Four sections put one after the other. */
  lemma Concat4<T>(a: seq<T>, b: seq<T>, c: seq<T>, d: seq<T>)
    ensures var s := a + b + c + d;
      && |s| == |a| + |b| + |c| + |d|
      && s[..|a|] == a && s[|a|..|a| + |b|] == b && s[|a| + |b|..|a| + |b| + |c|] == c
      && s[|a| + |b| + |c|..] == d
  {
    assert a + b + c + d == a + (b + (c + d));
  }

  lemma {:induction false} EnvLinesIndex(env: seq<EnvVar>)
    ensures |EnvLines(env)| == 2 * |env|
    ensures forall n :: 0 <= n < |env| ==>
      EnvLines(env)[2 * n] == "        - name: " + env[n].name && EnvLines(env)[2 * n + 1] == "          value: " + env[n].value
    decreases |env|
  {
    if env != [] {
      EnvLinesIndex(env[..|env| - 1]);
    }
  }

  lemma {:induction false} EntryLinesIndex(ks: seq<string>, m: map<string, string>)
    requires forall k :: k in ks ==> k in m
    ensures |EntryLines(ks, m)| == |ks|
    ensures forall n :: 0 <= n < |ks| ==> EntryLines(ks, m)[n] == "            " + ks[n] + ": " + m[ks[n]]
    decreases |ks|
  {
    if ks != [] {
      var init := ks[..|ks| - 1];
      assert forall k :: k in init ==> k in ks;
      EntryLinesIndex(init, m);
    }
  }
}
