/** The deployed functions and the cache of pulled images, keyed by digest. */
module FunctionStore {
  import opened Common

  /** A pulled or pullable image; `id` tells package objects apart, `target` whether it can be booted. */
  datatype Package = Package(id: nat, target: bool)

  /** `package` is what converting the manifest gives, None when the conversion fails. */
  datatype Manifest = Manifest(annotations: map<string, string>, configDigest: string, package: Option<Package>)

  datatype FunctionMetaData = FunctionMetaData(deployment: Deployment, package: Package, storageDir: string)

  /** Results of the calls that leave the provider: image name parser, containerd, file system, pull. */
  datatype Outside = Outside(reference: Option<string>, manifests: Option<seq<Manifest>>,
                             mkdir: bool, detect: bool, pull: bool)

  datatype Outcome =
    | Stored(meta: FunctionMetaData)
    | Removed
    | AlreadyExists
    | NotFound
    | BadReference
    | ListFailed
    | NoManifest
    | ShortDigest   // slicing the digest panics
    | SetupFailed
    | PullFailed
    | NotATarget

  datatype Store = Store(images: map<string, Package>, functions: map<string, FunctionMetaData>)

  /** `pulled` is the digest whose image was pulled, if any. */
  datatype Effect = Effect(store: Store, outcome: Outcome, pulled: Option<string>)

  const OCI_DIRECTORY := "/tmp/kraftkit/oci"

  /** filepath.Join of the image directory and a digest. */
  function Dir(digest: string): string {
    if digest == "" then OCI_DIRECTORY else OCI_DIRECTORY + "/" + digest
  }

  lemma DirInjective(a: string, b: string)
    ensures Dir(a) == Dir(b) <==> a == b
  {
    var n := |OCI_DIRECTORY| + 1;
    if a != "" { assert Dir(a)[n..] == a; }
    if b != "" { assert Dir(b)[n..] == b; }
  }

  const NAME := "org.unikraft.image.name"
  const VERSION := "org.unikraft.image.version"

  predicate Matches(m: Manifest, reference: string) {
    && NAME in m.annotations && VERSION in m.annotations
    && m.annotations[NAME] + ":" + m.annotations[VERSION] == reference
  }

  predicate Usable(m: Manifest, reference: string) {
    Matches(m, reference) && m.package.Some?
  }

  /** Position of the first manifest that matches and converts. */
  function Select(manifests: seq<Manifest>, reference: string): (r: Option<nat>)
    ensures r.Some? ==> r.value < |manifests| && Usable(manifests[r.value], reference)
    ensures r.Some? ==> forall k :: 0 <= k < r.value ==> !Usable(manifests[k], reference)
    ensures r.None? ==> forall k :: 0 <= k < |manifests| ==> !Usable(manifests[k], reference)
  {
    if manifests == [] then None
    else if Usable(manifests[0], reference) then Some(0)
    else
      match Select(manifests[1..], reference)
      case None => None
      case Some(k) => Some(k + 1)
  }

  function Keep(st: Store, outcome: Outcome): Effect {
    Effect(st, outcome, None)
  }

  /** The part of AddFunction after a manifest has been chosen. */
  function Admit(st: Store, req: Deployment, digest: string, fetched: Package, env: Outside): Effect {
    var cached := digest in st.images;
    var pulled := if cached then None else Some(digest);
    var package := if cached then st.images[digest] else fetched;
    var meta := FunctionMetaData(req, package, Dir(digest));
    if !cached && !(env.mkdir && env.detect) then Keep(st, SetupFailed)
    else if !cached && !env.pull then Effect(st, PullFailed, pulled)
    else if !package.target then Effect(st, NotATarget, pulled)
    else Effect(Store(st.images[digest := package], st.functions[req.service := meta]), Stored(meta), pulled)
  }

  function Add(st: Store, req: Deployment, env: Outside): Effect {
    if req.service in st.functions then Keep(st, AlreadyExists)
    else if env.reference.None? then Keep(st, BadReference)
    else if env.manifests.None? then Keep(st, ListFailed)
    else
      match Select(env.manifests.value, env.reference.value)
      case None => Keep(st, NoManifest)
      case Some(k) =>
        var m := env.manifests.value[k];
        if |m.configDigest| < 4 then Keep(st, ShortDigest)
        else Admit(st, req, m.configDigest[4..], m.package.value, env)
  }

  function Delete(st: Store, service: string): Store {
    st.(functions := st.functions - {service})
  }

  /** A new image means deleting and adding; otherwise the package stays and the request is replaced. */
  function Update(st: Store, req: Deployment, env: Outside): Effect {
    if req.service !in st.functions then Keep(st, NotFound)
    else
      var meta := st.functions[req.service];
      if meta.deployment.image != req.image then Add(Delete(st, req.service), req, env)
      else
        var meta' := FunctionMetaData(req, meta.package, meta.storageDir);
        Keep(st.(functions := st.functions[req.service := meta']), Stored(meta'))
  }

  // ---------------------------------------------------------------- coherence

  /** The function's package is the cached one for the digest that names its directory. */
  predicate From(st: Store, service: string, digest: string)
    requires service in st.functions
  {
    && digest in st.images
    && st.functions[service].storageDir == Dir(digest)
    && st.functions[service].package == st.images[digest]
    && st.functions[service].package.target
  }

  ghost predicate Coherent(st: Store) {
    forall s :: s in st.functions ==>
                  st.functions[s].deployment.service == s && exists d :: From(st, s, d)
  }

  /** Cache entries never change. */
  ghost predicate CacheGrows(before: Store, after: Store) {
    forall d :: d in before.images ==> d in after.images && after.images[d] == before.images[d]
  }

  lemma AddGrows(st: Store, req: Deployment, env: Outside)
    ensures st.functions.Keys <= Add(st, req, env).store.functions.Keys
    ensures Add(st, req, env).outcome.Stored? ==> req.service in Add(st, req, env).store.functions
  {
  }

  lemma AddKeepsCoherence(st: Store, req: Deployment, env: Outside)
    requires Coherent(st)
    ensures Coherent(Add(st, req, env).store)
    ensures CacheGrows(st, Add(st, req, env).store)
    ensures Add(st, req, env).pulled.Some? ==> Add(st, req, env).pulled.value !in st.images
  {
    var after := Add(st, req, env).store;
    if after != st {
      var k := Select(env.manifests.value, env.reference.value).value;
      var digest := env.manifests.value[k].configDigest[4..];
      assert From(after, req.service, digest);
      StoringKeepsCoherence(st, after, req.service);
    }
  }

  /** A new coherent entry leaves the others coherent while cache entries do not change. */
  lemma StoringKeepsCoherence(st: Store, after: Store, service: string)
    requires Coherent(st) && CacheGrows(st, after) && after.functions.Keys == st.functions.Keys + {service}
    requires forall s :: s in st.functions && s != service ==> after.functions[s] == st.functions[s]
    requires after.functions[service].deployment.service == service && exists d :: From(after, service, d)
    ensures Coherent(after)
  {
    forall s | s in after.functions && s != service ensures exists d :: From(after, s, d) {
      var d :| From(st, s, d);
      assert From(after, s, d);
    }
  }

  lemma DeleteKeepsCoherence(st: Store, service: string)
    requires Coherent(st)
    ensures Coherent(Delete(st, service)) && CacheGrows(st, Delete(st, service))
  {
    var after := Delete(st, service);
    forall s | s in after.functions ensures exists d :: From(after, s, d) {
      var d :| From(st, s, d);
      assert From(after, s, d);
    }
  }

  lemma UpdateKeepsCoherence(st: Store, req: Deployment, env: Outside)
    requires Coherent(st)
    ensures Coherent(Update(st, req, env).store)
    ensures CacheGrows(st, Update(st, req, env).store)
    ensures Update(st, req, env).pulled.Some? ==> Update(st, req, env).pulled.value !in st.images
  {
    if req.service in st.functions {
      DeleteKeepsCoherence(st, req.service);
      AddKeepsCoherence(Delete(st, req.service), req, env);
      if st.functions[req.service].deployment.image == req.image {
        var after := Update(st, req, env).store;
        forall s | s in after.functions ensures exists d :: From(after, s, d) {
          var d :| From(st, s, d);
          assert From(after, s, d);
        }
      }
    }
  }

  /**
    A stored function comes from the first manifest that converts and whose name and version annotations,
    with a colon between them, are the reference. Its package is the cached one of the manifest's digest, or
    the manifest's own, which is then pulled; the digest also names its directory, and is the only one to do so.
   */
  lemma AddUsesFirstUsable(st: Store, req: Deployment, env: Outside)
    requires Add(st, req, env).outcome.Stored?
    ensures req.service !in st.functions && env.manifests.Some? && env.reference.Some?
    ensures Add(st, req, env).outcome.meta.deployment == req
    ensures Add(st, req, env).store.functions == st.functions[req.service := Add(st, req, env).outcome.meta]
    ensures exists k :: 0 <= k < |env.manifests.value|
              && (var m := env.manifests.value[k];
                  && "org.unikraft.image.name" in m.annotations && "org.unikraft.image.version" in m.annotations
                  && m.annotations["org.unikraft.image.name"] + ":" + m.annotations["org.unikraft.image.version"] == env.reference.value
                  && m.package.Some? && |m.configDigest| >= 4)
              && (forall j :: 0 <= j < k ==>
                    var m := env.manifests.value[j];
                    || m.package.None?
                    || "org.unikraft.image.name" !in m.annotations || "org.unikraft.image.version" !in m.annotations
                    || m.annotations["org.unikraft.image.name"] + ":" + m.annotations["org.unikraft.image.version"] != env.reference.value)
              && var digest := env.manifests.value[k].configDigest[4..];
                 && From(Add(st, req, env).store, req.service, digest)
                 && (forall d :: From(Add(st, req, env).store, req.service, d) ==> d == digest)
                 && Add(st, req, env).pulled == (if digest in st.images then None else Some(digest))
                 && Add(st, req, env).outcome.meta.package
                    == (if digest in st.images then st.images[digest] else env.manifests.value[k].package.value)
                 && Add(st, req, env).outcome.meta.storageDir
                    == (if digest == "" then "/tmp/kraftkit/oci" else "/tmp/kraftkit/oci/" + digest)
                 && Add(st, req, env).store.images == st.images[digest := Add(st, req, env).outcome.meta.package]
  {
    var k := Select(env.manifests.value, env.reference.value).value;
    var digest := env.manifests.value[k].configDigest[4..];
    forall d | From(Add(st, req, env).store, req.service, d) ensures d == digest {
      DirInjective(d, digest);
    }
    assert Usable(env.manifests.value[k], env.reference.value);
  }

  /** Conversely, the first such manifest is the one that is selected. */
  lemma {:induction false} FirstMatchIsSelected(manifests: seq<Manifest>, n: string, v: string, k: nat)
    requires k < |manifests| && manifests[k].package.Some?
    requires "org.unikraft.image.name" in manifests[k].annotations && manifests[k].annotations["org.unikraft.image.name"] == n
    requires "org.unikraft.image.version" in manifests[k].annotations && manifests[k].annotations["org.unikraft.image.version"] == v
    requires forall j :: 0 <= j < k ==>
               var m := manifests[j];
               || m.package.None?
               || "org.unikraft.image.name" !in m.annotations || "org.unikraft.image.version" !in m.annotations
               || m.annotations["org.unikraft.image.name"] + ":" + m.annotations["org.unikraft.image.version"] != n + ":" + v
    ensures Select(manifests, n + ":" + v) == Some(k)
  {
    if k == 0 {
      assert Matches(manifests[0], n + ":" + v);
    } else {
      assert !Usable(manifests[0], n + ":" + v);
      FirstMatchIsSelected(manifests[1..], n, v, k - 1);
    }
  }

  /** Why a function is not added, for every case, in the order in which the cases are looked at. */
  lemma OutcomesOfAdd(st: Store, req: Deployment, env: Outside)
    ensures Add(st, req, env).outcome.AlreadyExists? <==> req.service in st.functions
    ensures Add(st, req, env).outcome.BadReference? <==> req.service !in st.functions && env.reference.None?
    ensures Add(st, req, env).outcome.ListFailed? <==> req.service !in st.functions && env.reference.Some? && env.manifests.None?
    ensures req.service !in st.functions && env.reference.Some? && env.manifests.Some? ==>
              match Select(env.manifests.value, env.reference.value)
              case None => Add(st, req, env).outcome.NoManifest?
              case Some(k) =>
                var digest := env.manifests.value[k].configDigest;
                var isCached := |digest| >= 4 && digest[4..] in st.images;
                && (Add(st, req, env).outcome.ShortDigest? <==> |digest| < 4)
                && (Add(st, req, env).outcome.SetupFailed? <==> |digest| >= 4 && !isCached && !(env.mkdir && env.detect))
                && (Add(st, req, env).outcome.PullFailed? <==>
                      |digest| >= 4 && !isCached && env.mkdir && env.detect && !env.pull)
                && (Add(st, req, env).outcome.NotATarget? <==>
                      && |digest| >= 4 && (!isCached ==> env.mkdir && env.detect && env.pull)
                      && !(if isCached then st.images[digest[4..]] else env.manifests.value[k].package.value).target)
    ensures !Add(st, req, env).outcome.Stored? ==> Add(st, req, env).store == st
  {
  }

  // ---------------------------------------------------------------- when adding works

  ghost predicate FirstUsable(manifests: seq<Manifest>, reference: string, k: nat) {
    k < |manifests| && Usable(manifests[k], reference) && forall j :: 0 <= j < k ==> !Usable(manifests[j], reference)
  }

  /** The chosen manifest can be stored: its image is a target, and either cached or can be fetched. */
  predicate Ready(images: map<string, Package>, m: Manifest, env: Outside) {
    && |m.configDigest| >= 4 && m.package.Some?
    && var digest := m.configDigest[4..];
       if digest in images then images[digest].target
       else env.mkdir && env.detect && env.pull && m.package.value.target
  }

  /** The image name parses, manifests are listed, and the first usable one is ready. */
  ghost predicate Deployable(images: map<string, Package>, env: Outside) {
    && env.reference.Some? && env.manifests.Some?
    && exists k: nat :: FirstUsable(env.manifests.value, env.reference.value, k) && Ready(images, env.manifests.value[k], env)
  }

  /** There is at most one first usable manifest, and it is the selected one. */
  lemma SelectedIsFirst(manifests: seq<Manifest>, reference: string)
    ensures forall k: nat :: FirstUsable(manifests, reference, k) <==> Select(manifests, reference) == Some(k)
  {
    forall k: nat | FirstUsable(manifests, reference, k) ensures Select(manifests, reference) == Some(k) {
      assert Select(manifests, reference).Some?;
    }
  }

  /** Adding works exactly for a new service with a deployable image. */
  lemma StoredIffDeployable(st: Store, req: Deployment, env: Outside)
    ensures Add(st, req, env).outcome.Stored? <==> req.service !in st.functions && Deployable(st.images, env)
    ensures req.service in Add(st, req, env).store.functions <==> req.service in st.functions || Deployable(st.images, env)
  {
    if env.reference.Some? && env.manifests.Some? {
      SelectedIsFirst(env.manifests.value, env.reference.value);
    }
  }

  /** The image of that digest has to be fetched, and the preparations for it work. */
  ghost predicate NeedsPull(st: Store, req: Deployment, env: Outside, k: nat) {
    && req.service !in st.functions && env.reference.Some? && env.manifests.Some?
    && FirstUsable(env.manifests.value, env.reference.value, k)
    && var digest := env.manifests.value[k].configDigest;
       |digest| >= 4 && digest[4..] !in st.images && env.mkdir && env.detect
  }

  /** What is pulled, for all inputs; and a pull is wasted exactly when it fails or fetches no target. */
  lemma PulledIff(st: Store, req: Deployment, env: Outside, digest: string)
    ensures Add(st, req, env).pulled == Some(digest) <==>
            exists k: nat :: NeedsPull(st, req, env, k) && digest == env.manifests.value[k].configDigest[4..]
    ensures forall k: nat :: NeedsPull(st, req, env, k) && digest == env.manifests.value[k].configDigest[4..] ==>
              (digest in Add(st, req, env).store.images <==> env.pull && env.manifests.value[k].package.value.target)
  {
    if env.reference.Some? && env.manifests.Some? {
      SelectedIsFirst(env.manifests.value, env.reference.value);
      var chosen := Select(env.manifests.value, env.reference.value);
      if Add(st, req, env).pulled == Some(digest) {
        assert NeedsPull(st, req, env, chosen.value);
      }
    }
  }

  /** Updating to another image loses the function exactly when the new image is not deployable. */
  lemma UpdateLosesFunctionIff(st: Store, req: Deployment, env: Outside)
    requires req.service in st.functions
    ensures req.service !in Update(st, req, env).store.functions <==>
            st.functions[req.service].deployment.image != req.image && !Deployable(st.images, env)
    ensures req.service in Update(st, req, env).store.functions ==>
              Update(st, req, env).store.functions[req.service].deployment == req
  {
    StoredIffDeployable(Delete(st, req.service), req, env);
  }

  // ---------------------------------------------------------------- whole runs

  datatype Op = AddOp(req: Deployment, env: Outside) | UpdateOp(req: Deployment, env: Outside) | DeleteOp(service: string)

  function Do(st: Store, op: Op): Effect {
    match op
    case AddOp(req, env) => Add(st, req, env)
    case UpdateOp(req, env) => Update(st, req, env)
    case DeleteOp(service) => Effect(Delete(st, service), Removed, None)
  }

  function Run(st: Store, ops: seq<Op>): Store
    decreases |ops|
  {
    if ops == [] then st else Run(Do(st, ops[0]).store, ops[1..])
  }

  /** The digests pulled during a run, in order. */
  function Pulls(st: Store, ops: seq<Op>): seq<string>
    decreases |ops|
  {
    if ops == [] then []
    else
      var e := Do(st, ops[0]);
      (if e.pulled.Some? then [e.pulled.value] else []) + Pulls(e.store, ops[1..])
  }

  /** Over every run: functions stay coherent, the cache only grows, and a cached digest is never pulled. */
  lemma {:induction false} RunsAreCoherent(st: Store, ops: seq<Op>)
    requires Coherent(st)
    ensures Coherent(Run(st, ops))
    ensures CacheGrows(st, Run(st, ops))
    ensures forall d :: d in st.images ==> d !in Pulls(st, ops)
    decreases |ops|
  {
    if ops != [] {
      match ops[0] {
        case AddOp(req, env) => AddKeepsCoherence(st, req, env);
        case UpdateOp(req, env) => UpdateKeepsCoherence(st, req, env);
        case DeleteOp(service) => DeleteKeepsCoherence(st, service);
      }
      RunsAreCoherent(Do(st, ops[0]).store, ops[1..]);
    }
  }

  // ---------------------------------------------------------------- the store itself

  class Functions {
    var imageStore: map<string, Package>
    var metaData: map<string, FunctionMetaData>

    ghost function State(): Store
      reads this
    {
      Store(imageStore, metaData)
    }

    constructor ()
      ensures State() == Store(map[], map[]) && Coherent(State())
    {
      imageStore := map[];
      metaData := map[];
    }

    predicate FunctionExists(service: string)
      reads this
    {
      service in metaData
    }

    method AddFunction(req: Deployment, env: Outside) returns (r: Outcome, pulled: Option<string>)
      modifies this
      ensures Effect(State(), r, pulled) == Add(old(State()), req, env)
    {
      pulled := None;
      if FunctionExists(req.service) {
        return AlreadyExists, None;
      }
      if env.reference.None? {
        return BadReference, None;
      }
      if env.manifests.None? {
        return ListFailed, None;
      }
      var reference, manifests := env.reference.value, env.manifests.value;
      var ocipack: Option<Package> := None;
      var descriptor := "";
      var i := 0;
      while i < |manifests|
        invariant i <= |manifests|
        invariant forall k :: 0 <= k < i ==> !Usable(manifests[k], reference)
        invariant ocipack == None
        invariant State() == old(State())
      {
        var m := manifests[i];
        if NAME in m.annotations && VERSION in m.annotations
           && m.annotations[NAME] + ":" + m.annotations[VERSION] == reference
        {
          ocipack := m.package;
          descriptor := m.configDigest;
          if ocipack.Some? {
            break;
          }
        }
        i := i + 1;
      }
      if ocipack.None? {
        return NoManifest, None;
      }
      if |descriptor| < 4 {
        return ShortDigest, None;
      }
      var digest := descriptor[4..];
      var storageDir := Dir(digest);
      if digest in imageStore {
        ocipack := Some(imageStore[digest]);
      } else {
        if !env.mkdir || !env.detect {
          return SetupFailed, None;
        }
        pulled := Some(digest);
        if !env.pull {
          return PullFailed, pulled;
        }
      }
      if !ocipack.value.target {
        return NotATarget, pulled;
      }
      var meta := FunctionMetaData(req, ocipack.value, storageDir);
      metaData := metaData[req.service := meta];
      imageStore := imageStore[digest := ocipack.value];
      r := Stored(meta);
    }

    method DeleteFunction(service: string)
      modifies this
      ensures State() == Delete(old(State()), service)
      ensures metaData == old(metaData) - {service} && imageStore == old(imageStore)
    {
      metaData := metaData - {service};
    }

    method GetFunction(service: string) returns (r: Option<FunctionMetaData>)
      ensures r == if service in metaData then Some(metaData[service]) else None
    {
      if service in metaData {
        return Some(metaData[service]);
      }
      return None;
    }

    method UpdateFunction(req: Deployment, env: Outside) returns (r: Outcome, newImage: bool, pulled: Option<string>)
      modifies this
      ensures Effect(State(), r, pulled) == Update(old(State()), req, env)
      ensures newImage <==> req.service in old(metaData) && old(metaData)[req.service].deployment.image != req.image
      ensures req.service !in old(metaData) ==> r == NotFound && pulled.None? && State() == old(State())
      ensures newImage ==> Effect(State(), r, pulled) == Add(Store(old(imageStore), old(metaData) - {req.service}), req, env)
      ensures req.service in old(metaData) && !newImage ==>
                var kept := old(metaData)[req.service];
                && metaData == old(metaData)[req.service := FunctionMetaData(req, kept.package, kept.storageDir)]
                && imageStore == old(imageStore) && pulled.None? && r == Stored(metaData[req.service])
    {
      var found := GetFunction(req.service);
      if found.None? {
        return NotFound, false, None;
      }
      if found.value.deployment.image != req.image {
        DeleteFunction(req.service);
        newImage := true;
        r, pulled := AddFunction(req, env);
      } else {
        var updated := FunctionMetaData(req, found.value.package, found.value.storageDir);
        metaData := metaData[req.service := updated];
        r, newImage, pulled := Stored(updated), false, None;
      }
    }
  }
}
