/** Remote container runtimes: their configuration string, and the choice between a
    remote and the local adapter for a runtime handler or an image name. */
module RemoteRuntimes {
  import opened GoStrings

  const HANDLER := "multicri"
  const DEFAULT := "default"

  /** Runtime name to endpoint. */
  type Remotes = map<string, string>

  // ---- routing by runtime handler ----

  datatype Route = Local | Remote(name: string) | NotFound(name: string)

  function GetRemoteRuntime(remotes: Remotes, handler: string): Route {
    if handler == HANDLER || |remotes| == 0 then Local
    else
      var name := if handler == "" then DEFAULT else handler;
      if name in remotes then Remote(name) else NotFound(name)
  }

  /** Where the records of a handler belong: here for the service's own handler or when no
      remote is configured, and else with the configured remote that has the handler's name,
      or for the empty handler with the default one. */
  predicate Belongs(remotes: Remotes, handler: string, route: Route) {
    if handler == HANDLER || remotes == map[] then route == Local
    else route.Remote? && route.name in remotes && route.name == if handler == "" then DEFAULT else handler
  }

  /** A handler leads where its records belong, and to an error exactly when there are remotes
      but none of the name it asks for. */
  lemma RoutesExactlyWhen(remotes: Remotes, handler: string, route: Route)
    ensures GetRemoteRuntime(remotes, handler) == route && !route.NotFound? <==> Belongs(remotes, handler, route)
    ensures GetRemoteRuntime(remotes, handler).NotFound? <==>
            && handler != HANDLER && remotes != map[]
            && (if handler == "" then DEFAULT !in remotes else handler !in remotes)
    ensures GetRemoteRuntime(remotes, handler).NotFound? ==>
              GetRemoteRuntime(remotes, handler).name == if handler == "" then DEFAULT else handler
  {
    assert |remotes| == 0 <==> remotes == map[];
  }

  /** So every configured name but the service's own leads to the remote of that very name, and
      the empty handler to the default one. */
  lemma NamedRemoteServes(remotes: Remotes, name: string)
    requires name in remotes && name != HANDLER && name != ""
    ensures GetRemoteRuntime(remotes, name) == Remote(name)
    ensures "default" in remotes ==> GetRemoteRuntime(remotes, "") == Remote("default")
    ensures GetRemoteRuntime(remotes, "multicri") == Local
  {
    assert |remotes| > 0;
  }

  /** The handler under which local records are listed. */
  function MulticriRuntimeName(remotes: Remotes): string {
    if DEFAULT in remotes then HANDLER else ""
  }

  /** Listing by name finds exactly the locally routed records when, and only when, a
      default remote is configured. */
  lemma ListedNameMeansLocalExactlyWhen(remotes: Remotes)
    ensures DEFAULT in remotes <==>
            forall h :: GetRemoteRuntime(remotes, h) == Local <==> h == MulticriRuntimeName(remotes)
  {
    if DEFAULT in remotes {
      assert |remotes| > 0;
    } else {
      assert GetRemoteRuntime(remotes, HANDLER) == Local;
    }
  }

  /** Under every configuration the listed name never leads to a remote. */
  lemma ListedNameNeverRemote(remotes: Remotes)
    ensures !GetRemoteRuntime(remotes, MulticriRuntimeName(remotes)).Remote?
  {
  }

  // ---- the configuration string ----

  datatype Loaded = Configured(remotes: Remotes) | BadFormat(plugin: string) | Unreachable(endpoint: string)

  /** `connects` says which endpoints accept a connection. */
  function LoadPlugins(plugins: seq<string>, connects: string -> bool, list: Remotes): Loaded {
    if plugins == [] then Configured(list)
    else
      var split := Split(plugins[0], ":");
      if |split| != 2 then BadFormat(plugins[0])
      else if !connects(split[1]) then Unreachable(split[1])
      else LoadPlugins(plugins[1..], connects, list[split[0] := split[1]])
  }

  function Load(config: string, connects: string -> bool): Loaded {
    if config == "" then Configured(map[]) else LoadPlugins(Split(config, ","), connects, map[])
  }

  method LoadRemoteRuntimeConfiguration(config: string, connects: string -> bool) returns (r: Loaded)
    ensures r == Load(config, connects)
  {
    var list: Remotes := map[];
    if config != "" {
      var plugins := Split(config, ",");
      var i := 0;
      while i < |plugins|
        invariant 0 <= i <= |plugins|
        invariant LoadPlugins(plugins, connects, map[]) == LoadPlugins(plugins[i..], connects, list)
      {
        var split := Split(plugins[i], ":");
        if |split| != 2 {
          return BadFormat(plugins[i]);
        }
        if !connects(split[1]) {
          return Unreachable(split[1]);
        }
        list := list[split[0] := split[1]];
        i := i + 1;
      }
    }
    return Configured(list);
  }

  datatype Plugin = Plugin(name: string, endpoint: string)

  predicate Writable(p: Plugin) {
    Free(p.name, ',') && Free(p.name, ':') && Free(p.endpoint, ',') && Free(p.endpoint, ':')
  }

  function RenderPlugin(p: Plugin): string {
    p.name + ":" + p.endpoint
  }

  function RenderPlugins(ps: seq<Plugin>): (rendered: seq<string>)
    ensures |rendered| == |ps|
    ensures forall i :: 0 <= i < |ps| ==> rendered[i] == RenderPlugin(ps[i])
  {
    if ps == [] then [] else [RenderPlugin(ps[0])] + RenderPlugins(ps[1..])
  }

  /** The configuration string for a list of named endpoints. */
  function Render(ps: seq<Plugin>): string {
    Join(RenderPlugins(ps), ",")
  }

  /** What the list configures: the last endpoint given for each name. */
  predicate Configures(ps: seq<Plugin>, remotes: Remotes) {
    && (forall i :: 0 <= i < |ps| ==> ps[i].name in remotes)
    && (forall n :: n in remotes ==>
          exists i :: 0 <= i < |ps| && ps[i] == Plugin(n, remotes[n]) && forall j :: i < j < |ps| ==> ps[j].name != n)
  }

  lemma SplitPlugin(p: Plugin)
    requires Writable(p)
    ensures Split(RenderPlugin(p), ":") == [p.name, p.endpoint]
    ensures Free(RenderPlugin(p), ',') && RenderPlugin(p) != ""
  {
    assert ":" == [':'];
    var pieces := [p.name, p.endpoint];
    assert Join(pieces, [':']) == RenderPlugin(p) by {
      assert pieces[1..] == [p.endpoint];
    }
    SplitJoin(pieces, ':');
  }

  /** Reading back a rendered list configures exactly its endpoints, later entries winning. */
  lemma LoadInvertsRender(ps: seq<Plugin>, connects: string -> bool)
    requires forall i :: 0 <= i < |ps| ==> Writable(ps[i]) && connects(ps[i].endpoint)
    ensures var r := Load(Render(ps), connects); r.Configured? && Configures(ps, r.remotes)
  {
    if ps != [] {
      var rendered := RenderPlugins(ps);
      forall i | 0 <= i < |ps| ensures Free(rendered[i], ',') && rendered[i] != "" {
        SplitPlugin(ps[i]);
      }
      assert "," == [','];
      SplitJoin(rendered, ',');
      assert Join(rendered, ",") != "" by {
        assert Split("", [',']) == [""];
      }
      LoadBinds(ps, map[], connects);
      BindConfigures([], ps, map[]);
      assert [] + ps == ps;
    }
  }

  /** The pairs written into the list in order. */
  function Bind(list: Remotes, ps: seq<Plugin>): Remotes
    decreases |ps|
  {
    if ps == [] then list else Bind(list[ps[0].name := ps[0].endpoint], ps[1..])
  }

  lemma {:induction false} LoadBinds(ps: seq<Plugin>, list: Remotes, connects: string -> bool)
    requires forall i :: 0 <= i < |ps| ==> Writable(ps[i]) && connects(ps[i].endpoint)
    ensures LoadPlugins(RenderPlugins(ps), connects, list) == Configured(Bind(list, ps))
    decreases |ps|
  {
    if ps != [] {
      SplitPlugin(ps[0]);
      assert RenderPlugins(ps)[1..] == RenderPlugins(ps[1..]);
      LoadStep(RenderPlugins(ps), connects, list, ps[0].name, ps[0].endpoint);
      LoadBinds(ps[1..], list[ps[0].name := ps[0].endpoint], connects);
    }
  }

  lemma {:induction false} BindConfigures(done: seq<Plugin>, ps: seq<Plugin>, list: Remotes)
    requires Configures(done, list)
    ensures Configures(done + ps, Bind(list, ps))
    decreases |ps|
  {
    if ps == [] {
      assert done + ps == done;
    } else {
      ConfiguresOneMore(done, ps[0], list);
      BindConfigures(done + [ps[0]], ps[1..], list[ps[0].name := ps[0].endpoint]);
      assert done + [ps[0]] + ps[1..] == done + ps;
    }
  }

  lemma LoadStep(plugins: seq<string>, connects: string -> bool, list: Remotes, name: string, endpoint: string)
    requires plugins != [] && Split(plugins[0], ":") == [name, endpoint] && connects(endpoint)
    ensures LoadPlugins(plugins, connects, list) == LoadPlugins(plugins[1..], connects, list[name := endpoint])
  {
  }

  lemma ConfiguresOneMore(done: seq<Plugin>, p: Plugin, list: Remotes)
    requires Configures(done, list)
    ensures Configures(done + [p], list[p.name := p.endpoint])
  {
    var all, list' := done + [p], list[p.name := p.endpoint];
    forall n | n in list'
      ensures exists i :: 0 <= i < |all| && all[i] == Plugin(n, list'[n]) && forall j :: i < j < |all| ==>
        all[j].name != n
    {
      if n == p.name {
        assert all[|done|] == Plugin(n, list'[n]);
      } else {
        var i :| 0 <= i < |done| && done[i] == Plugin(n, list[n]) && forall j :: i < j < |done| ==> done[j].name != n;
        assert all[i] == Plugin(n, list'[n]);
      }
    }
  }

  /** One comma-separated piece that names a reachable endpoint. */
  predicate Usable(plugin: string, connects: string -> bool) {
    CountChar(plugin, ':') == 1 && connects(plugin[Index(plugin, ":") + 1..])
  }

  predicate AllUsable(plugins: seq<string>, connects: string -> bool) {
    forall i :: 0 <= i < |plugins| ==> Usable(plugins[i], connects)
  }

  lemma UsableSplit(plugin: string, connects: string -> bool)
    ensures |Split(plugin, ":")| == 2 <==> CountChar(plugin, ':') == 1
    ensures |Split(plugin, ":")| == 2 ==> Split(plugin, ":")[1] == plugin[Index(plugin, ":") + 1..]
  {
    assert ":" == [':'];
    PieceCount(plugin, ':');
    if |Split(plugin, ":")| == 2 {
      SplitInTwo(plugin, ":");
    }
  }

  lemma {:induction false} PluginsLoadExactlyWhen(plugins: seq<string>, connects: string -> bool, list: Remotes)
    ensures LoadPlugins(plugins, connects, list).Configured? <==> AllUsable(plugins, connects)
    ensures var r := LoadPlugins(plugins, connects, list);
            (r.BadFormat? ==> r.plugin in plugins && CountChar(r.plugin, ':') != 1) &&
              (r.Unreachable? ==> !connects(r.endpoint))
    decreases |plugins|
  {
    if plugins != [] {
      UsableSplit(plugins[0], connects);
      var split := Split(plugins[0], ":");
      if |split| == 2 && connects(split[1]) {
        PluginsLoadExactlyWhen(plugins[1..], connects, list[split[0] := split[1]]);
        assert forall i :: 1 <= i < |plugins| ==> plugins[i] == plugins[1..][i - 1];
      }
    }
  }

  /** Loading succeeds exactly on the empty string and on comma-separated pieces with
      exactly one colon and a reachable endpoint each; a format error names a bad piece. */
  lemma LoadsExactlyWhen(config: string, connects: string -> bool)
    ensures Load(config, connects).Configured? <==> config == "" || AllUsable(Split(config, ","), connects)
    ensures var r := Load(config, connects);
            (r.BadFormat? ==> r.plugin in Split(config, ",") && CountChar(r.plugin, ':') != 1)
            && (r.Unreachable? ==> !connects(r.endpoint))
  {
    if config != "" {
      PluginsLoadExactlyWhen(Split(config, ","), connects, map[]);
    }
  }

  // ---- routing by image name ----

  datatype ImageRoute = ServeLocally(image: string) | ServeRemotely(name: string, image: string)

  predicate Enumerates<K>(order: seq<K>, keys: set<K>) {
    && (forall i :: 0 <= i < |order| ==> order[i] in keys)
    && (forall k :: k in keys ==> k in order)
    && (forall i, j :: 0 <= i < j < |order| ==> order[i] != order[j])
  }

  function FirstPrefix(names: seq<string>, image: string): int
    ensures -1 <= FirstPrefix(names, image) < |names|
    ensures FirstPrefix(names, image) >= 0 ==> HasPrefix(image, names[FirstPrefix(names, image)])
    ensures FirstPrefix(names, image) < 0 ==> forall i :: 0 <= i < |names| ==> !HasPrefix(image, names[i])
  {
    if names == [] then -1
    else if HasPrefix(image, names[0]) then 0
    else
      var rest := FirstPrefix(names[1..], image);
      if rest < 0 then -1 else rest + 1
  }

  /** `order` is the iteration order of the map of remotes. */
  function ImageManager(remotes: Remotes, image: string, order: seq<string>): ImageRoute {
    var prefix := HANDLER + "/";
    if HasPrefix(image, prefix) then ServeLocally(image[|prefix|..])
    else
      var k := FirstPrefix(order, image);
      if k >= 0 then ServeRemotely(order[k], image[|order[k]|..])
      else if DEFAULT in remotes then ServeRemotely(DEFAULT, image)
      else ServeLocally(image)
  }

  /** Whether an image is served locally, and under which name, does not depend on the
      iteration order; it is exactly the marked names, and all unclaimed names when no
      default remote exists. */
  lemma ServedLocallyExactlyWhen(remotes: Remotes, image: string, order: seq<string>)
    requires Enumerates(order, remotes.Keys)
    ensures ImageManager(remotes, image, order).ServeLocally? <==>
            HasPrefix(image, HANDLER + "/")
            || (DEFAULT !in remotes && forall n :: n in remotes ==> !HasPrefix(image, n))
    ensures ImageManager(remotes, image, order).ServeLocally? ==>
              ImageManager(remotes, image, order).image ==
              if HasPrefix(image, HANDLER + "/") then image[|HANDLER| + 1..] else image
    ensures ImageManager(remotes, image, order).ServeRemotely? ==>
              var served := ImageManager(remotes, image, order);
              && served.name in remotes
              && (image == served.name + served.image
                  || (served == ServeRemotely(DEFAULT, image) && forall n :: n in remotes ==> !HasPrefix(image, n)))
  {
    var k := FirstPrefix(order, image);
    if k >= 0 {
      assert order[k] in remotes;
    }
  }
}
