/** Reloading the daemon's connections: what is unloaded, what is loaded, and what is reported. */
module Reload {
  import opened Api
  import opened Lists

  type Ike = string   // a translated connection, opaque here

  /** A requested configuration: the name of the custom resource, the name in its spec, and the
      translation of the spec if there is one. */
  datatype Config = Config(resource: string, name: string, ike: Option<Ike>)

  datatype Response = Response(status: nat, failedConns: seq<string>, failedSecrets: seq<string>, errs: seq<string>)

  type Loaded = map<string, Ike>

  /** The names a loaded connection may have; the list starts out with blanks. */
  function Wanted(data: seq<Config>): set<string> {
    if data == [] then {} else {""} + (set c | c in data :: c.resource) + (set c | c in data :: c.name)
  }

  /** What is to be loaded: the last translatable configuration of a name. */
  function ToLoad(data: seq<Config>): (r: Loaded)
    ensures forall n :: n in r <==> exists c :: c in data && c.name == n && c.ike.Some?
  {
    if data == [] then map[]
    else
      var n := |data| - 1;
      assert data == data[..n] + [data[n]];
      var before := ToLoad(data[..n]);
      if data[n].ike.Some? then before[data[n].name := data[n].ike.value] else before
  }

  /** What stays loaded after the unwanted connections were unloaded, once per configuration. */
  function Kept(conns: Loaded, data: seq<Config>, sticky: set<string>): Loaded {
    if data == [] then conns else map n | n in conns && (n in Wanted(data) || n in sticky) :: conns[n]
  }

  /** The daemon, with the requests it will refuse. */
  class Daemon {
    var conns: Loaded
    const sticky: set<string>      // connections that fail to unload
    const badSecrets: set<string>  // configurations whose secret fails to load
    const rejected: set<string>    // configurations that fail to load

    constructor (conns: Loaded, sticky: set<string>, badSecrets: set<string>, rejected: set<string>)
      ensures this.conns == conns && this.sticky == sticky && this.badSecrets == badSecrets && this.rejected == rejected
    {
      this.conns, this.sticky, this.badSecrets, this.rejected := conns, sticky, badSecrets, rejected;
    }

    method UnloadConns(name: string)
      modifies this
      ensures conns == if name in sticky then old(conns) else old(conns) - {name}
    {
      if name !in sticky {
        conns := conns - {name};
      }
    }

    method LoadConns(toLoad: Loaded) returns (ok: bool)
      modifies this
      ensures conns == old(conns) + (toLoad - rejected)
      ensures ok <==> toLoad.Keys * rejected == {}
    {
      conns := conns + (toLoad - rejected);
      ok := toLoad.Keys * rejected == {};
    }

    /** Unloads every loaded connection that no configuration names. */
    method UnloadUnwanted(data: seq<Config>, wanted: set<string>)
      requires data != [] ==> wanted == Wanted(data)
      modifies this
      ensures conns == Kept(old(conns), data, sticky)
    {
      ghost var before := conns;
      var todo := conns.Keys;
      while todo != {}
        invariant todo <= before.Keys
        invariant conns == map n | n in before && (n in todo || data == [] || n in wanted || n in sticky) :: before[n]
        decreases |todo|
      {
        var name :| name in todo;
        ghost var atStart := conns;
        for i := 0 to |data|
          invariant i == 0 ==> conns == atStart
          invariant i > 0 ==> conns == if name in wanted || name in sticky then atStart else atStart - {name}
        {
          if name !in wanted {
            UnloadConns(name);
          }
        }
        todo := todo - {name};
      }
      assert conns == Kept(before, data, sticky);
    }

    /** `reloadConfig`; `relisted` says whether the daemon can be asked again after a failure. */
    method ReloadConfig(request: Option<seq<Config>>, relisted: bool) returns (response: Response)
      modifies this
      ensures request.None? ==> conns == old(conns) && response.status == 400
      ensures request.Some? ==> Reloaded(old(conns), request.value, sticky, badSecrets, rejected, relisted, conns, response)
    {
      if request.None? {
        return Response(400, [], [], ["Config slice is nil"]);
      }
      var wanted := WantedNames(request.value);
      UnloadUnwanted(request.value, wanted);
      response := LoadConfigs(request.value, relisted);
    }

    method WantedNames(data: seq<Config>) returns (wanted: set<string>)
      ensures data != [] ==> wanted == Wanted(data)
    {
      wanted := {""};
      for i := 0 to |data|
        invariant wanted == {""} + (set c | c in data[..i] :: c.resource) + (set c | c in data[..i] :: c.name)
      {
        assert data[..i + 1] == data[..i] + [data[i]];
        wanted := wanted + {data[i].resource, data[i].name};
      }
      assert data[..|data|] == data;
    }

    /** The loading half of `reloadConfig`. */
    method LoadConfigs(data: seq<Config>, relisted: bool) returns (response: Response)
      modifies this
      ensures Loads(old(conns), data, badSecrets, rejected, relisted, conns, response)
    {
      ghost var kept := conns;
      var toLoad, errs := Translate(data);
      var failedSecrets := LoadSecrets(toLoad);
      toLoad := toLoad - Elements(failedSecrets);
      assert toLoad == ToLoad(data) - badSecrets;
      var failedConns := [];
      var ok := LoadConns(toLoad);
      assert toLoad.Keys - conns.Keys == toLoad.Keys * rejected - kept.Keys;
      EmptyElements(failedConns);
      if !ok {
        if relisted {
          failedConns := Missing(toLoad);
        } else {
          errs := errs + ["Couldn't check which configs failed to load"];
        }
      }
      var status := if failedConns != [] || failedSecrets != [] || errs != [] then 400 else 200;
      response := Response(status, failedConns, failedSecrets, errs);
    }

    method Translate(data: seq<Config>) returns (toLoad: Loaded, errs: seq<string>)
      ensures toLoad == ToLoad(data)
      ensures errs != [] <==> exists c :: c in data && c.ike.None?
    {
      toLoad, errs := map[], [];
      for i := 0 to |data|
        invariant toLoad == ToLoad(data[..i])
        invariant errs != [] <==> exists c :: c in data[..i] && c.ike.None?
      {
        assert data[..i + 1][..i] == data[..i];
        assert data[..i + 1] == data[..i] + [data[i]];
        match data[i].ike
        case Some(ike) => toLoad := toLoad[data[i].name := ike];
        case None => errs := errs + [data[i].name];
      }
      assert data[..|data|] == data;
    }

    method LoadSecrets(toLoad: Loaded) returns (failed: seq<string>)
      ensures Elements(failed) == toLoad.Keys * badSecrets
    {
      failed := [];
      var todo := toLoad.Keys;
      while todo != {}
        invariant todo <= toLoad.Keys
        invariant Elements(failed) == (toLoad.Keys - todo) * badSecrets
      {
        var name :| name in todo;
        todo := todo - {name};
        if name in badSecrets {
          assert Elements(failed + [name]) == Elements(failed) + {name};
          failed := failed + [name];
        }
      }
    }

    /** The names that are not loaded after the attempt. */
    method Missing(toLoad: Loaded) returns (missing: seq<string>)
      ensures Elements(missing) == toLoad.Keys - conns.Keys
    {
      missing := [];
      var todo := toLoad.Keys;
      while todo != {}
        invariant todo <= toLoad.Keys
        invariant Elements(missing) == toLoad.Keys - todo - conns.Keys
      {
        var name :| name in todo;
        todo := todo - {name};
        if name !in conns {
          assert Elements(missing + [name]) == Elements(missing) + {name};
          missing := missing + [name];
        }
      }
    }
  }

  lemma EmptyElements(s: seq<string>)
    ensures Elements(s) == {} <==> s == []
  {
    if s != [] {
      assert s[0] in Elements(s);
    }
  }

  /** The effect of loading on top of what was kept, and the answer. */
  ghost predicate Loads(kept: Loaded, data: seq<Config>, badSecrets: set<string>, rejected: set<string>, relisted: bool,
                        after: Loaded, response: Response) {
    var toLoad := ToLoad(data) - badSecrets;
    var refused := toLoad.Keys * rejected;
    && after == kept + (toLoad - rejected)
    && Elements(response.failedSecrets) == ToLoad(data).Keys * badSecrets
    && Elements(response.failedConns) == (if relisted then refused - kept.Keys else {})
    && (response.errs != [] <==> (exists c :: c in data && c.ike.None?) || (refused != {} && !relisted))
    && response.status == (if response.failedConns != [] || response.failedSecrets != [] || response.errs != [] then 400 else 200)
  }

  /** The effect of a reload on what is loaded, and its answer. */
  ghost predicate Reloaded(before: Loaded, data: seq<Config>, sticky: set<string>, badSecrets: set<string>,
                           rejected: set<string>, relisted: bool, after: Loaded, response: Response) {
    Loads(Kept(before, data, sticky), data, badSecrets, rejected, relisted, after, response)
  }

  // ---------------------------------------------------------------- what a reload promises

  /** Afterwards every loaded connection is named by a configuration, exactly when every other one
      that was loaded could be unloaded and there was a configuration at all. */
  lemma OnlyWantedIff(before: Loaded, data: seq<Config>, sticky: set<string>, badSecrets: set<string>,
                      rejected: set<string>, relisted: bool, after: Loaded, response: Response)
    requires Reloaded(before, data, sticky, badSecrets, rejected, relisted, after, response)
    ensures after.Keys <= Wanted(data) <==>
      forall n :: n in before && n !in Wanted(data) ==> data != [] && n !in sticky
  {}

  /** Every configuration ends up loaded, or its failure makes the answer a refusal that names it
      or carries an error. */
  lemma Accounted(before: Loaded, data: seq<Config>, sticky: set<string>, badSecrets: set<string>,
                  rejected: set<string>, relisted: bool, after: Loaded, response: Response, c: Config)
    requires Reloaded(before, data, sticky, badSecrets, rejected, relisted, after, response) && c in data
    ensures (c.ike.Some? && c.name in after)
      || (response.status == 400 && (c.name in response.failedConns || c.name in response.failedSecrets || response.errs != []))
  {
    assert forall n :: n in response.failedConns <==> n in Elements(response.failedConns);
    assert forall n :: n in response.failedSecrets <==> n in Elements(response.failedSecrets);
    if c.ike.Some? {
      var toLoad := ToLoad(data) - badSecrets;
      assert c.name in ToLoad(data);
      if c.name in badSecrets {
        assert c.name in ToLoad(data).Keys * badSecrets;
      } else if c.name in rejected {
        var refused, kept := toLoad.Keys * rejected, Kept(before, data, sticky);
        assert c.name in refused;
        assert c.name !in kept ==> c.name in refused - kept.Keys;
      } else {
        assert c.name in toLoad - rejected;
      }
    }
  }

  /** Everything requested is loaded as requested. */
  ghost predicate Current(data: seq<Config>, after: Loaded) {
    forall n :: n in ToLoad(data) ==> n in after && after[n] == ToLoad(data)[n]
  }

  /** An answer of 200 means everything requested is loaded as requested, if and only if no
      configuration was refused while an older one of its name, different from it, was loaded. */
  lemma SuccessIsCurrentIff(before: Loaded, data: seq<Config>, sticky: set<string>, badSecrets: set<string>,
                            rejected: set<string>, relisted: bool, after: Loaded, response: Response)
    requires Reloaded(before, data, sticky, badSecrets, rejected, relisted, after, response) && response.status == 200
    ensures Current(data, after) <==>
      !exists n :: n in ToLoad(data) && n in rejected && n in before && before[n] != ToLoad(data)[n]
  {
    EmptyElements(response.failedSecrets);
    EmptyElements(response.failedConns);
    var toLoad := ToLoad(data) - badSecrets;
    forall n | n in ToLoad(data) ensures n in toLoad {
      assert n !in ToLoad(data).Keys * badSecrets;
    }
    var refused := toLoad.Keys * rejected;
    var kept := Kept(before, data, sticky);
    assert refused - kept.Keys == {};
    forall n | n in refused ensures n in kept && after[n] == before[n] {
      assert n !in refused - kept.Keys;
    }
    if Current(data, after) {
      forall n | n in ToLoad(data) && n in rejected && n in before ensures before[n] == ToLoad(data)[n] {
        assert n in refused;
      }
    }
  }

  /** Such a failure does go unreported. */
  lemma StaleUnreported(after: Loaded, response: Response)
    requires Reloaded(map["c" := "old"], [Config("c", "c", Some("new"))], {}, {}, {"c"}, true, after, response)
    ensures response.status == 200 && after == map["c" := "old"]
  {
    var data := [Config("c", "c", Some("new"))];
    assert data[..0] == [];
    assert ToLoad(data) == map["c" := "new"];
    assert Config("c", "c", Some("new")) in data;
    assert "c" in Wanted(data);
    assert Kept(map["c" := "old"], data, {}) == map["c" := "old"];
    EmptyElements(response.failedConns);
    EmptyElements(response.failedSecrets);
  }

  // ---------------------------------------------------------------- a reload, told without its parts

  /** The last configuration of that name that could be translated. */
  ghost predicate LastOf(data: seq<Config>, i: int, n: string) {
    0 <= i < |data| && data[i].name == n && data[i].ike.Some?
      && forall j :: i < j < |data| && data[j].name == n ==> data[j].ike.None?
  }

  lemma LastEarlier(data: seq<Config>, i: int, n: string)
    requires data != [] && !(data[|data| - 1].name == n && data[|data| - 1].ike.Some?)
    ensures LastOf(data, i, n) <==> LastOf(data[..|data| - 1], i, n)
  {}

  lemma {:induction false} ToLoadAt(data: seq<Config>, n: string) returns (i: int)
    ensures n in ToLoad(data) ==> LastOf(data, i, n) && ToLoad(data)[n] == data[i].ike.value
    ensures n !in ToLoad(data) ==> forall j :: !LastOf(data, j, n)
  {
    i := |data| - 1;
    if data != [] && !(data[i].name == n && data[i].ike.Some?) {
      i := ToLoadAt(data[..|data| - 1], n);
      forall j ensures LastOf(data, j, n) <==> LastOf(data[..|data| - 1], j, n) {
        LastEarlier(data, j, n);
      }
    }
  }

  lemma ToLoadIs(data: seq<Config>, n: string)
    ensures n in ToLoad(data) <==> exists i :: LastOf(data, i, n)
    ensures forall i :: LastOf(data, i, n) ==> n in ToLoad(data) && ToLoad(data)[n] == data[i].ike.value
  {
    var i := ToLoadAt(data, n);
    forall j | LastOf(data, j, n) ensures n in ToLoad(data) && j == i {}
  }

  /** The name of a configuration, as a resource or in its spec, or no name. */
  ghost predicate NamedBy(data: seq<Config>, n: string) {
    n == "" || exists c :: c in data && (c.resource == n || c.name == n)
  }

  lemma KeptIs(conns: Loaded, data: seq<Config>, sticky: set<string>, n: string)
    ensures n in Kept(conns, data, sticky) <==> n in conns && (data == [] || NamedBy(data, n) || n in sticky)
    ensures n in Kept(conns, data, sticky) ==> Kept(conns, data, sticky)[n] == conns[n]
  {}

  lemma Merged(kept: Loaded, toLoad: Loaded, badSecrets: set<string>, rejected: set<string>, n: string)
    ensures var after, taken := kept + (toLoad - badSecrets - rejected), n in toLoad && n !in badSecrets && n !in rejected;
      (n in after <==> taken || n in kept) && (n in after ==> after[n] == if taken then toLoad[n] else kept[n])
  {}

  /** What is loaded after a reload: the last translatable configuration of every name whose secret and
      itself the daemon takes; and of what was loaded before, with no configurations everything, and
      otherwise what a configuration names or cannot be unloaded. */
  lemma LoadedIs(before: Loaded, data: seq<Config>, sticky: set<string>, badSecrets: set<string>, rejected: set<string>,
                 relisted: bool, after: Loaded, response: Response, n: string)
    requires Reloaded(before, data, sticky, badSecrets, rejected, relisted, after, response)
    ensures var taken := n !in badSecrets && n !in rejected && exists i :: LastOf(data, i, n);
      && (n in after <==> taken || (n in before && (data == [] || NamedBy(data, n) || n in sticky)))
      && (forall i :: taken && LastOf(data, i, n) ==> after[n] == data[i].ike.value)
      && (!taken && n in after ==> after[n] == before[n])
  {
    ToLoadIs(data, n);
    KeptIs(before, data, sticky, n);
    Merged(Kept(before, data, sticky), ToLoad(data), badSecrets, rejected, n);
  }

  /** Which names are listed as failed, in terms of what was to be loaded. */
  lemma FailedAre(before: Loaded, data: seq<Config>, sticky: set<string>, badSecrets: set<string>, rejected: set<string>,
                  relisted: bool, after: Loaded, response: Response)
    requires Reloaded(before, data, sticky, badSecrets, rejected, relisted, after, response)
    ensures forall n :: n in response.failedSecrets <==> n in badSecrets && n in ToLoad(data)
    ensures forall n :: n in response.failedConns <==>
      relisted && n in rejected && n !in badSecrets && n !in before && n in ToLoad(data)
  {
    assert forall n :: n in response.failedSecrets <==> n in Elements(response.failedSecrets);
    assert forall n :: n in response.failedConns <==> n in Elements(response.failedConns);
  }

  /** When the answer is 200, in terms of what was to be loaded. */
  lemma AnswerOf(before: Loaded, data: seq<Config>, sticky: set<string>, badSecrets: set<string>, rejected: set<string>,
                 relisted: bool, after: Loaded, response: Response)
    requires Reloaded(before, data, sticky, badSecrets, rejected, relisted, after, response)
    ensures response.status == 200 <==>
      && (forall c :: c in data ==> c.ike.Some?)
      && (forall n :: n in ToLoad(data) ==> n !in badSecrets)
      && (forall n :: n in ToLoad(data) && n in rejected ==> relisted && n in before)
  {
    FailedAre(before, data, sticky, badSecrets, rejected, relisted, after, response);
    EmptyIff(response.failedSecrets);
    EmptyIff(response.failedConns);
    RefusedIff(data, badSecrets, rejected);
  }

  lemma EmptyIff(s: seq<string>)
    ensures s == [] <==> forall n :: n !in s
  {
    assert s != [] ==> s[0] in s;
  }

  lemma RefusedIff(data: seq<Config>, badSecrets: set<string>, rejected: set<string>)
    ensures (ToLoad(data) - badSecrets).Keys * rejected != {} <==>
      exists n :: n in ToLoad(data) && n !in badSecrets && n in rejected
  {
    var refused := (ToLoad(data) - badSecrets).Keys * rejected;
    forall n ensures n in refused <==> n in ToLoad(data) && n !in badSecrets && n in rejected {}
  }

  lemma AllLoadable(data: seq<Config>, badSecrets: set<string>, rejected: set<string>, excused: set<string>)
    ensures (forall n :: n in ToLoad(data) ==> n !in badSecrets) <==>
      forall i, n :: LastOf(data, i, n) ==> n !in badSecrets
    ensures (forall n :: n in ToLoad(data) && n in rejected ==> n in excused) <==>
      forall i, n :: LastOf(data, i, n) && n in rejected ==> n in excused
  {
    forall n ensures n in ToLoad(data) <==> exists i :: LastOf(data, i, n) {
      ToLoadIs(data, n);
    }
  }

  /** What is answered: 200 exactly when no configuration failed to translate, no secret failed, and no
      configuration was rejected of which no older version is loaded, or after which the daemon could not
      be asked. */
  lemma AnswerIs(before: Loaded, data: seq<Config>, sticky: set<string>, badSecrets: set<string>, rejected: set<string>,
                 relisted: bool, after: Loaded, response: Response)
    requires Reloaded(before, data, sticky, badSecrets, rejected, relisted, after, response)
    ensures response.status in {200, 400}
    ensures response.status == 200 <==>
      && (forall c :: c in data ==> c.ike.Some?)
      && (forall i, n :: LastOf(data, i, n) ==> n !in badSecrets)
      && (forall i, n :: LastOf(data, i, n) && n in rejected ==> relisted && n in before)
    ensures forall n :: n in response.failedSecrets <==> n in badSecrets && exists i :: LastOf(data, i, n)
    ensures forall n :: n in response.failedConns <==>
      relisted && n in rejected && n !in badSecrets && n !in before && exists i :: LastOf(data, i, n)
  {
    FailedAre(before, data, sticky, badSecrets, rejected, relisted, after, response);
    forall n ensures n in ToLoad(data) <==> exists i :: LastOf(data, i, n) {
      ToLoadIs(data, n);
    }
    AllLoadable(data, badSecrets, rejected, if relisted then before.Keys else {});
    AnswerOf(before, data, sticky, badSecrets, rejected, relisted, after, response);
  }
}
