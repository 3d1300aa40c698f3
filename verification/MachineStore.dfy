/**
  The machine store with its machines as objects: label and annotation maps are shared between
  machines, and creating one machine writes into maps that others hold.
 */
module MachineStore {
  import opened Common
  import opened InternalController
  import FunctionStore

  const SERVICE := "ukfaas.io/service"
  const IMAGE := "ukfaas.io/image"
  const NAMESPACE := "ukfaas.io/namespace"
  const FILESYSTEM := "ukfaas.io/filesystem"

  /** What a machine is created for. */
  datatype Identity = Identity(service: string, image: string, namespace: string)

  /** Go's map lookup: a missing key reads as the empty string. */
  function Get(m: map<string, string>, key: string): string {
    if key in m then m[key] else ""
  }

  function Labelled(m: map<string, string>): Identity {
    Identity(Get(m, SERVICE), Get(m, IMAGE), Get(m, NAMESPACE))
  }

  /** The labels are there, and say what the machine is for. */
  predicate Carries(m: map<string, string>, id: Identity) {
    && SERVICE in m && m[SERVICE] == id.service
    && IMAGE in m && m[IMAGE] == id.image
    && NAMESPACE in m && m[NAMESPACE] == id.namespace
  }

  function WithLabels(m: map<string, string>, id: Identity): map<string, string> {
    m[SERVICE := id.service][IMAGE := id.image][NAMESPACE := id.namespace]
  }

  datatype MachineRequest = MachineRequest(id: Identity, storagePath: string, labels: StringMap?, annotations: StringMap?)

  /** The file system a machine is recorded with: the storage path, or nothing when that does not exist. */
  function VolumeLayer(req: MachineRequest, volumes: bool): string {
    if volumes then req.storagePath else ""
  }

  /** Where createMachine gives up: nowhere, before it writes the label maps, or after that. */
  datatype Failure = Never | BeforeLabels | AfterLabels

  class Machine {
    const uid: nat
    ghost const identity: Identity
    const labels: StringMap
    const annotations: StringMap
    var running: bool

    constructor (uid: nat, ghost identity: Identity, labels: StringMap, annotations: StringMap, running: bool)
      ensures this.uid == uid && this.identity == identity && this.running == running
      ensures this.labels == labels && this.annotations == annotations
    {
      this.uid := uid;
      this.identity := identity;
      this.labels := labels;
      this.annotations := annotations;
      this.running := running;
    }
  }

  class Store {
    var instances: map<nat, Machine>
    var networks: map<nat, IP>
    const network: InternalNetworkController
    /** Which identity's machines may hold a map. */
    ghost var owner: map<StringMap, Identity>

    constructor (network: InternalNetworkController)
      ensures Valid() && instances == map[] && networks == map[] && owner == map[] && this.network == network
    {
      this.network := network;
      instances := map[];
      networks := map[];
      owner := map[];
    }

    /** Machines are filed under their UID, and share maps only with machines of the same identity. */
    ghost predicate Owned()
      reads this
    {
      forall u :: u in instances ==> OwnedMachine(u, instances[u])
    }

    ghost predicate OwnedMachine(u: nat, m: Machine)
      reads this
    {
      && m.uid == u
      && m.labels in owner && owner[m.labels] == m.identity
      && m.annotations in owner && owner[m.annotations] == m.identity
    }

    /** Every stored machine's labels still say what it was created for. */
    ghost predicate Intact()
      reads this, set u | u in instances :: instances[u].labels
    {
      forall u :: u in instances ==> Labelled(instances[u].labels.m) == instances[u].identity
    }

    ghost predicate Valid()
      reads this, set u | u in instances :: instances[u].labels
    {
      Owned() && Intact()
    }

    /** Stored machine `u` would survive writing the labels of `id` into `m`. */
    ghost predicate Survives(u: nat, m: StringMap?, id: Identity)
      requires u in instances
      reads this
    {
      instances[u].labels == m ==> instances[u].identity == id
    }

    /** The map is unused so far, or used for this identity only. */
    ghost predicate Fits(m: StringMap?, id: Identity)
      reads this
    {
      m != null && m in owner ==> owner[m] == id
    }

    /** The requested maps, or new ones. */
    method PickMaps(req: MachineRequest) returns (labels: StringMap, annotations: StringMap)
      ensures if req.labels != null then labels == req.labels else fresh(labels)
      ensures if req.annotations != null then annotations == req.annotations else fresh(annotations)
      ensures forall u :: u in instances ==> (Survives(u, labels, req.id) <==> Survives(u, req.labels, req.id))
    {
      if req.annotations != null {
        annotations := req.annotations;
      } else {
        annotations := new StringMap();
      }
      if req.labels != null {
        labels := req.labels;
      } else {
        labels := new StringMap();
      }
    }

    /**
      Writes the labels and the file system into the maps. Labels stay intact exactly when no stored
      machine of another identity holds the map that is written.
     */
    method WriteMaps(id: Identity, storagePath: string, labels: StringMap, annotations: StringMap)
      modifies this`owner, labels, annotations
      ensures Carries(labels.m, id) && Get(annotations.m, FILESYSTEM) == storagePath
      ensures owner == old(owner)[labels := id][annotations := id]
      ensures old(Intact()) ==> (Intact() <==> old(forall u :: u in instances ==> Survives(u, labels, id)))
    {
      labels.m := WithLabels(labels.m, id);
      annotations.m := annotations.m[FILESYSTEM := storagePath];
      owner := owner[labels := id][annotations := id];
      assert forall m: StringMap :: m != labels ==> Labelled(m.m) == old(Labelled(m.m));
      forall u | u in instances && old(Intact())
        ensures Labelled(instances[u].labels.m) == instances[u].identity <==> old(Survives(u, labels, id))
      {
        assert old(Labelled(instances[u].labels.m)) == instances[u].identity;
      }
    }

    lemma OwnedWith(was: map<StringMap, Identity>, id: Identity, labels: StringMap, annotations: StringMap)
      requires owner == was[labels := id][annotations := id]
      requires forall u :: u in instances ==>
                 var m := instances[u];
                 m.uid == u && m.labels in was && was[m.labels] == m.identity && m.annotations in was && was[m.annotations] == m.identity
      requires (labels in was ==> was[labels] == id) && (annotations in was ==> was[annotations] == id)
      ensures Owned()
    {
    }

    /** `volumes` says whether the storage path exists; without it no file system is recorded. */
    method PrepareMaps(req: MachineRequest, volumes: bool) returns (labels: StringMap, annotations: StringMap)
      modifies this`owner, req.labels, req.annotations
      ensures if req.labels != null then labels == req.labels else fresh(labels)
      ensures if req.annotations != null then annotations == req.annotations else fresh(annotations)
      ensures Carries(labels.m, req.id) && Get(annotations.m, FILESYSTEM) == VolumeLayer(req, volumes)
      ensures owner == old(owner)[labels := req.id][annotations := req.id]
      ensures old(Intact()) ==> (Intact() <==> old(forall u :: u in instances ==> Survives(u, req.labels, req.id)))
      ensures old(Owned() && Fits(req.labels, req.id) && Fits(req.annotations, req.id)) ==> Owned()
    {
      ghost var fitting := Owned() && Fits(req.labels, req.id) && Fits(req.annotations, req.id);
      labels, annotations := PickMaps(req);
      ghost var was := owner;
      WriteMaps(req.id, VolumeLayer(req, volumes), labels, annotations);
      if fitting {
        OwnedWith(was, req.id, labels, annotations);
      }
    }

    /** Makes the new machine, and stores it and its interface. */
    method FileMachine(id: Identity, labels: StringMap, annotations: StringMap, uid: nat, ip: IP, running: bool)
      requires uid !in instances && Labelled(labels.m) == id
      modifies this`instances, this`networks
      ensures networks == old(networks)[uid := ip]
      ensures uid in instances && fresh(instances[uid]) && instances == old(instances)[uid := instances[uid]]
      ensures instances[uid].labels == labels && instances[uid].annotations == annotations
      ensures instances[uid].identity == id && instances[uid].running == running
      ensures Intact() <==> old(Intact())
      ensures old(Owned()) && labels in owner && owner[labels] == id && annotations in owner && owner[annotations] == id ==> Owned()
    {
      var machine := new Machine(uid, id, labels, annotations, running);
      instances := instances[uid := machine];
      networks := networks[uid := ip];
      assert forall u :: u in old(instances) ==> instances[u] == old(instances[u]);
    }

    /**
      The part of createMachine that concerns the store. The labels are written into the given map
      before the last call that can fail, so a failed creation can change other machines' labels too.
     */
    method CreateMachine(req: MachineRequest, uid: nat, ip: IP, volumes: bool, running: bool, failure: Failure)
      returns (ok: bool)
      requires uid !in instances
      modifies this`instances, this`networks, this`owner, req.labels, req.annotations
      ensures ok <==> failure.Never?
      ensures !ok ==> instances == old(instances) && networks == old(networks)
      ensures ok ==>
                && networks == old(networks)[uid := ip]
                && uid in instances && fresh(instances[uid]) && instances == old(instances)[uid := instances[uid]]
                && instances[uid].identity == req.id && instances[uid].running == running
                && Carries(instances[uid].labels.m, req.id)
                && MapsOf(instances[uid], req) && Get(instances[uid].annotations.m, FILESYSTEM) == VolumeLayer(req, volumes)
      ensures old(Intact()) ==>
                (Intact() <==> failure.BeforeLabels? || old(forall u :: u in instances ==> Survives(u, req.labels, req.id)))
      ensures forall m :: m in owner ==>
                || (m in old(owner) && owner[m] == old(owner)[m])
                || (owner[m] == req.id && (m == req.labels || m == req.annotations || fresh(m)))
      ensures old(Owned() && Fits(req.labels, req.id) && Fits(req.annotations, req.id)) ==> Owned()
    {
      if failure.BeforeLabels? {
        return false;
      }
      var labels, annotations := PrepareMaps(req, volumes);
      forall m | m in owner
        ensures (m in old(owner) && owner[m] == old(owner)[m])
                || (owner[m] == req.id && (m == req.labels || m == req.annotations || fresh(m)))
      {
        assert m == labels || m == annotations || (m in old(owner) && owner[m] == old(owner)[m]);
      }
      if failure.AfterLabels? {
        return false;
      }
      FileMachine(req.id, labels, annotations, uid, ip, running);
      ok := true;
    }

    /** The machine holds the very maps that were given, as far as they were. */
    ghost predicate MapsOf(machine: Machine, req: MachineRequest) {
      (req.labels != null ==> machine.labels == req.labels) && (req.annotations != null ==> machine.annotations == req.annotations)
    }

    /** What the store shows of its machines: the service on their labels, and whether they run. */
    ghost function View(): map<nat, Shown>
      reads this, (set u | u in instances :: instances[u]), set u | u in instances :: instances[u].labels
    {
      map u | u in instances :: Show(instances[u])
    }

    /** Every machine shows the service it was created for. */
    ghost predicate Honest()
      reads this, (set u | u in instances :: instances[u]), set u | u in instances :: instances[u].labels
    {
      forall u :: u in instances ==> Show(instances[u]) == Shown(instances[u].identity.service, instances[u].running)
    }

    lemma IntactIsHonest()
      requires Intact()
      ensures Honest()
    {
      forall u | u in instances ensures Show(instances[u]).service == instances[u].identity.service {
        assert Labelled(instances[u].labels.m) == instances[u].identity;
      }
    }

    /** What is shown after a call that only adds machine `uid`, if anything. */
    twostate lemma ViewGrows(uid: nat)
      requires old(Honest()) && Honest() && uid !in old(instances)
      requires instances == old(instances) || (uid in instances && instances == old(instances)[uid := instances[uid]])
      requires forall u :: u in old(instances) ==> instances[u].running == old(instances[u].running)
      ensures View() == if uid in instances then old(View())[uid := Show(instances[uid])] else old(View())
    {
    }

    /** A deployment's machines are created with the deployment's own maps. */
    method NewMachine(meta: FunctionStore.FunctionMetaData, uid: nat, ip: IP, volumes: bool, running: bool,
                      failure: Failure)
      returns (ok: bool)
      requires uid !in instances
      requires Valid()
      requires Fits(meta.deployment.labels, IdentityOf(meta.deployment)) && Fits(meta.deployment.annotations, IdentityOf(meta.deployment))
      modifies this`instances, this`networks, this`owner, meta.deployment.labels, meta.deployment.annotations
      ensures Valid()
      ensures forall m :: m in owner ==>
                || (m in old(owner) && owner[m] == old(owner)[m])
                || (owner[m] == IdentityOf(meta.deployment) && (m == meta.deployment.labels || m == meta.deployment.annotations || fresh(m)))
      ensures View() == if ok then old(View())[uid := Shown(meta.deployment.service, running)] else old(View())
      ensures ok <==> meta.package.target && failure.Never?
      ensures !ok ==> instances == old(instances) && networks == old(networks)
      ensures ok ==> uid in instances && fresh(instances[uid]) && instances == old(instances)[uid := instances[uid]]
                     && networks == old(networks)[uid := ip] && instances[uid].running == running
                     && instances[uid].identity == IdentityOf(meta.deployment)
      ensures ok ==> var labels, d := instances[uid].labels.m, meta.deployment;
                     && "ukfaas.io/service" in labels && labels["ukfaas.io/service"] == d.service
                     && "ukfaas.io/image" in labels && labels["ukfaas.io/image"] == d.image
                     && "ukfaas.io/namespace" in labels && labels["ukfaas.io/namespace"] == d.namespace
      ensures ok ==> Get(instances[uid].annotations.m, "ukfaas.io/filesystem")
                     == (if volumes then meta.storageDir + "/unikraft/fs0" else "")
      ensures ok ==> (meta.deployment.labels != null ==> instances[uid].labels == meta.deployment.labels)
                     && (meta.deployment.annotations != null ==> instances[uid].annotations == meta.deployment.annotations)
    {
      IntactIsHonest();
      if !meta.package.target {
        return false;
      }
      var id := IdentityOf(meta.deployment);
      assert forall u :: u in instances ==> OwnedMachine(u, instances[u]) && Survives(u, meta.deployment.labels, id);
      ok := CreateMachine(
        MachineRequest(id, meta.storageDir + "/unikraft/fs0", meta.deployment.labels, meta.deployment.annotations),
        uid, ip, volumes, running, failure);
      IntactIsHonest();
      ViewGrows(uid);
    }

    /** GetReplicas: how many stored machines carry the service label and are Running. */
    method GetReplicas(service: string) returns (count: nat)
      ensures count == |set u | u in instances && instances[u].running && Get(instances[u].labels.m, "ukfaas.io/service") == service|
    {
      count := 0;
      var todo := instances.Keys;
      ghost var counted := {};
      while todo != {}
        invariant todo <= instances.Keys && |counted| == count
        invariant forall u :: u in counted <==> u in instances && u !in todo && Serving(instances[u], service)
        decreases todo
      {
        var u :| u in todo;
        todo := todo - {u};
        if Serving(instances[u], service) {
          count := count + 1;
          counted := counted + {u};
        }
      }
      assert counted == set u | u in instances && instances[u].running && Get(instances[u].labels.m, "ukfaas.io/service") == service;
    }

    /** getFunctionMachine: some Running machine with that service label, if there is one. */
    method GetFunctionMachine(service: string) returns (r: Option<Machine>)
      requires Owned()
      ensures r.Some? ==>
                && r.value.uid in instances && instances[r.value.uid] == r.value
                && r.value.running && Get(r.value.labels.m, "ukfaas.io/service") == service
      ensures r.None? ==>
                forall u :: u in instances ==> !(instances[u].running && Get(instances[u].labels.m, "ukfaas.io/service") == service)
    {
      var todo := instances.Keys;
      while todo != {}
        invariant todo <= instances.Keys
        invariant forall u :: u in instances && u !in todo ==> !Serving(instances[u], service)
        decreases todo
      {
        var u :| u in todo;
        if Serving(instances[u], service) {
          assert OwnedMachine(u, instances[u]);
          return Some(instances[u]);
        }
        todo := todo - {u};
      }
      r := None;
    }

    /**
      A clone is made for what the source's labels say, and gets the source's annotation map as its
      label map and as its annotation map.
     */
    method CloneMachine(service: string, uid: nat, ip: IP, volumes: bool, running: bool, failure: Failure)
      returns (ok: bool, ghost source: nat)
      requires Valid() && uid !in instances
      modifies this`instances, this`networks, this`owner, set u | u in instances :: instances[u].annotations
      ensures ok ==> uid in instances && source in old(instances)
      ensures ok ==>
                Get(instances[uid].annotations.m, "ukfaas.io/filesystem")
                == (if volumes then old(Get(instances[source].annotations.m, "ukfaas.io/filesystem")) else "")
      ensures Valid()
      ensures View() == if ok then old(View())[uid := Shown(service, running)] else old(View())
      ensures forall m :: m in owner ==> (m in old(owner) && owner[m] == old(owner)[m]) || fresh(m)
      ensures ok <==> failure.Never? && old(exists u :: u in instances && Serving(instances[u], service))
      ensures !ok ==> instances == old(instances) && networks == old(networks)
      ensures ok ==> uid in instances && fresh(instances[uid]) && instances == old(instances)[uid := instances[uid]]
                     && networks == old(networks)[uid := ip] && instances[uid].running == running
                     && instances[uid].identity.service == service
      ensures ok ==>
                && source in old(instances)
                && old(instances[source].running && Get(instances[source].labels.m, "ukfaas.io/service") == service)
                && instances[uid].identity == old(instances[source].identity)
                && instances[uid].labels == old(instances[source].annotations)
                && instances[uid].annotations == old(instances[source].annotations)
      ensures ok ==>
                && Get(instances[uid].labels.m, "ukfaas.io/service") == old(Get(instances[source].labels.m, "ukfaas.io/service"))
                && Get(instances[uid].labels.m, "ukfaas.io/image") == old(Get(instances[source].labels.m, "ukfaas.io/image"))
                && Get(instances[uid].labels.m, "ukfaas.io/namespace") == old(Get(instances[source].labels.m, "ukfaas.io/namespace"))
    {
      ghost var before := View();
      var machine := GetFunctionMachine(service);
      assert View() == before;
      if machine.None? {
        return false, 0;
      }
      source := machine.value.uid;
      assert machine.value.identity.service == service by {
        assert Labelled(machine.value.labels.m) == instances[machine.value.uid].identity;
      }
      ok := CloneFrom(machine.value, uid, ip, volumes, running, failure);
      assert View() == if ok then before[uid := Shown(service, running)] else before;
    }

    /** The rest of CloneMachine, once the source is known. */
    method CloneFrom(machine: Machine, uid: nat, ip: IP, volumes: bool, running: bool, failure: Failure)
      returns (ok: bool)
      requires Valid() && uid !in instances && machine.uid in instances && instances[machine.uid] == machine
      modifies this`instances, this`networks, this`owner, machine.annotations
      ensures Valid()
      ensures View() == if ok then old(View())[uid := Shown(machine.identity.service, running)] else old(View())
      ensures forall m :: m in owner ==> (m in old(owner) && owner[m] == old(owner)[m]) || fresh(m)
      ensures ok <==> failure.Never?
      ensures !ok ==> instances == old(instances) && networks == old(networks)
      ensures ok ==> uid in instances && fresh(instances[uid]) && instances == old(instances)[uid := instances[uid]]
                     && networks == old(networks)[uid := ip] && instances[uid].running == running
                     && instances[uid].identity == machine.identity
                     && instances[uid].labels == machine.annotations && instances[uid].annotations == machine.annotations
                     && Get(instances[uid].annotations.m, FILESYSTEM)
                        == (if volumes then old(Get(machine.annotations.m, FILESYSTEM)) else "")
                     && Carries(instances[uid].labels.m, old(Labelled(machine.labels.m)))
    {
      IntactIsHonest();
      var id := Labelled(machine.labels.m);
      assert id == machine.identity && OwnedMachine(machine.uid, machine);
      assert forall u :: u in instances ==> OwnedMachine(u, instances[u]) && Survives(u, machine.annotations, id);
      ok := CreateMachine(
        MachineRequest(id, Get(machine.annotations.m, FILESYSTEM), machine.annotations, machine.annotations),
        uid, ip, volumes, running, failure);
      IntactIsHonest();
      ViewGrows(uid);
    }

    /** A stored machine is stored under its own UID only. */
    lemma StoredOnce(machine: Machine)
      requires Owned() && machine.uid in instances && instances[machine.uid] == machine
      ensures forall v :: v in instances && v != machine.uid ==> instances[v] != machine
    {
      assert forall v :: v in instances ==> OwnedMachine(v, instances[v]);
    }

    /** What is left of a machine after Stop: nothing, or a machine with the same metadata that does not run. */
    method Conclude(machine: Machine, gone: bool)
      requires Valid() && machine.uid in instances && instances[machine.uid] == machine
      modifies this`instances, this`networks, machine
      ensures Valid()
      ensures instances == if gone then old(instances) - {machine.uid} else old(instances)
      ensures networks == if gone then old(networks) - {machine.uid} else old(networks)
      ensures machine.running <==> old(machine.running) && gone
      ensures View() == if gone then old(View()) - {machine.uid}
                        else old(View())[machine.uid := Shown(Get(machine.labels.m, SERVICE), false)]
    {
      if gone {
        instances := instances - {machine.uid};
        networks := networks - {machine.uid};
      } else {
        MarkMachine(machine);
      }
    }

    /**
      The address is deleted under the service that the machine's labels name, which is the service it
      was created for. False when the platform cannot be reached, when the machine has no interface yet,
      or when the deletion panics.
     */
    method DeleteAddress(machine: Machine, platform: bool) returns (ok: bool)
      requires network.Valid() && Valid() && Labelled(machine.labels.m) == machine.identity
      modifies network
      ensures network.Valid() && Valid() && View() == old(View())
      ensures Deletes(old(network.State()), network.State(), machine.identity.service, AddressOf(networks, machine.uid, platform), ok)
    {
      if !platform || machine.uid !in networks {
        return false;
      }
      var service := Get(machine.labels.m, SERVICE);
      ok := network.DeleteServiceIP(service, networks[machine.uid]);
    }

    /** destroyMachine, once its machine is known: the address goes first, then the machine. */
    method DestroyMachine(machine: Machine, platform: bool, gone: bool) returns (ok: bool)
      requires Valid() && network.Valid() && machine.uid in instances && instances[machine.uid] == machine
      modifies this`instances, this`networks, network, machine
      ensures network.Valid() && Valid()
      ensures Deletes(old(network.State()), network.State(), machine.identity.service, AddressOf(old(networks), machine.uid, platform), ok)
      ensures instances == if ok && gone then old(instances) - {machine.uid} else old(instances)
      ensures networks == if ok && gone then old(networks) - {machine.uid} else old(networks)
      ensures machine.running <==> old(machine.running) && (ok ==> gone)
      ensures View() == if !ok then old(View())
                        else if gone then old(View()) - {machine.uid}
                        else old(View())[machine.uid := Shown(Get(machine.labels.m, SERVICE), false)]
    {
      ok := DeleteAddress(machine, platform);
      ghost var deleted := network.State();
      if !ok {
        return;
      }
      Conclude(machine, gone);
      assert network.Valid() && network.State() == deleted;
    }

    /** Picks a running machine of the service and marks it as no longer running. */
    method ClaimMachine(service: string) returns (r: Option<Machine>)
      requires Valid()
      modifies this`instances, set u | u in instances :: instances[u]
      ensures Valid() && instances == old(instances)
      ensures r.None? ==> ServingIn(old(View()), service) == {} && View() == old(View())
      ensures r.Some? ==>
                && r.value.uid in ServingIn(old(View()), service) && instances[r.value.uid] == r.value
                && Show(r.value) == Shown(service, false)
                && old(instances[r.value.uid].running && Get(instances[r.value.uid].labels.m, "ukfaas.io/service") == service)
                && !r.value.running
                && View() == old(View())[r.value.uid := Shown(service, false)]
    {
      ghost var view := View();
      r := GetFunctionMachine(service);
      assert View() == view && Valid();
      if r.None? {
        assert ServingIn(View(), service) == {};
        return;
      }
      MarkMachine(r.value);
    }

    /** Marks a stored machine and stores it again, which leaves the map as it was. */
    method MarkMachine(machine: Machine)
      requires Valid() && machine.uid in instances && instances[machine.uid] == machine
      modifies this`instances, machine
      ensures Valid() && instances == old(instances) && !machine.running
      ensures View() == old(View())[machine.uid := Shown(Get(machine.labels.m, SERVICE), false)]
    {
      StoredOnce(machine);
      machine.running := false;
      instances := instances[machine.uid := machine];
      assert instances == old(instances);
      forall v | v in instances ensures Show(instances[v]) == if v == machine.uid then Shown(Get(machine.labels.m, SERVICE), false) else old(Show(instances[v])) {
      }
    }

    /**
      Claims a machine of the service, then destroys it. Whatever becomes of that, exactly this machine
      does not run any more, and nothing else changes about the others.
     */
    method DeleteMachine(service: string, platform: bool, gone: bool) returns (claimed: Option<nat>, ok: bool)
      requires Valid() && network.Valid()
      modifies this`instances, this`networks, network, set u | u in instances :: instances[u]
      ensures network.Valid() && Valid()
      ensures claimed.None? ==> !ok && ServingIn(old(View()), service) == {} && network.State() == old(network.State())
      ensures claimed.Some? ==>
                claimed.value in ServingIn(old(View()), service) && ServingIn(View(), service) == ServingIn(old(View()), service) - {claimed.value}
      ensures claimed.Some? ==>
                Deletes(old(network.State()), network.State(), service, AddressOf(old(networks), claimed.value, platform), ok)
      ensures ok <==> claimed.Some? && platform && claimed.value in old(networks)
                      && DelIP(old(network.State()), service, old(networks)[claimed.value]).Some?
      ensures View() == if claimed.None? then old(View())
                        else if ok && gone then old(View()) - {claimed.value}
                        else old(View())[claimed.value := Shown(service, false)]
      ensures instances == if ok && gone then old(instances) - {claimed.value} else old(instances)
      ensures networks == if ok && gone then old(networks) - {claimed.value} else old(networks)
    {
      ghost var view := View();
      var r := ClaimMachine(service);
      assert network.Valid();
      if r.None? {
        return None, false;
      }
      claimed := Some(r.value.uid);
      ok := DestroyClaimed(r.value, service, platform, gone);
      ClaimedShown(view, View(), r.value.uid, service, ok && gone);
    }

    /** What is left to do for a machine that has been claimed. */
    method DestroyClaimed(machine: Machine, service: string, platform: bool, gone: bool) returns (ok: bool)
      requires Valid() && network.Valid() && machine.uid in instances && instances[machine.uid] == machine
      requires Show(machine) == Shown(service, false)
      modifies this`instances, this`networks, network, machine
      ensures network.Valid() && Valid() && !machine.running
      ensures Deletes(old(network.State()), network.State(), service, AddressOf(old(networks), machine.uid, platform), ok)
      ensures View() == if ok && gone then old(View()) - {machine.uid} else old(View())
      ensures instances == if ok && gone then old(instances) - {machine.uid} else old(instances)
      ensures networks == if ok && gone then old(networks) - {machine.uid} else old(networks)
    {
      assert OwnedMachine(machine.uid, machine) && Labelled(machine.labels.m) == machine.identity;
      assert old(View())[machine.uid] == Shown(service, false);
      ok := DestroyMachine(machine, platform, gone);
    }

    /**
      What RunHealthChecks does with one stored machine while it holds the lock. `answer` is what the
      platform says of the machine: None an error, otherwise whether it runs; `inPlace` whether asking
      writes that into the stored machine. A machine that is recorded as Running and does not run is
      destroyed; every other one is left alone.
     */
    method CheckMachine(u: nat, answer: Option<bool>, inPlace: bool, platform: bool, gone: bool)
      returns (destroyed: bool, ok: bool)
      requires Valid() && network.Valid() && u in instances
      modifies this`instances, this`networks, network, instances[u]
      ensures Valid() && network.Valid()
      ensures destroyed <==> old(instances[u].running) && answer == Some(false)
      ensures ok ==> destroyed
      ensures !destroyed ==> network.State() == old(network.State()) && View() == old(View())
      ensures destroyed ==>
                var service := old(Get(instances[u].labels.m, "ukfaas.io/service"));
                && Deletes(old(network.State()), network.State(), service, AddressOf(old(networks), u, platform), ok)
                && View() == AfterCheck(old(View()), u, service, inPlace, ok, gone)
                && (ok <==> platform && u in old(networks) && DelIP(old(network.State()), service, old(networks)[u]).Some?)
      ensures instances == if ok && gone then old(instances) - {u} else old(instances)
      ensures networks == if ok && gone then old(networks) - {u} else old(networks)
    {
      var machine := instances[u];
      assert OwnedMachine(u, machine);
      if !machine.running || answer != Some(false) {
        return false, false;
      }
      assert Labelled(machine.labels.m) == machine.identity;
      if inPlace {
        ok := DestroyInPlace(machine, platform, gone);
      } else {
        ok := DestroyMachine(machine, platform, gone);
      }
      destroyed := true;
    }

    /** Asking has written into the stored machine that it does not run. */
    method DestroyInPlace(machine: Machine, platform: bool, gone: bool) returns (ok: bool)
      requires Valid() && network.Valid() && machine.uid in instances && instances[machine.uid] == machine
      modifies this`instances, this`networks, network, machine
      ensures Valid() && network.Valid()
      ensures Deletes(old(network.State()), network.State(), Get(machine.labels.m, SERVICE), AddressOf(old(networks), machine.uid, platform), ok)
      ensures View() == if ok && gone then old(View()) - {machine.uid}
                        else old(View())[machine.uid := Shown(Get(machine.labels.m, SERVICE), false)]
      ensures instances == if ok && gone then old(instances) - {machine.uid} else old(instances)
      ensures networks == if ok && gone then old(networks) - {machine.uid} else old(networks)
    {
      ghost var view := View();
      MarkMachine(machine);
      assert network.Valid();
      ok := DestroyClaimed(machine, Get(machine.labels.m, SERVICE), platform, gone);
      ClaimedShown(view, View(), machine.uid, Get(machine.labels.m, SERVICE), ok && gone);
    }

    // -------------------------------------------------------------- any sequence of calls

    /** What the stored machines' labels say. */
    ghost function Labels(): map<nat, Identity>
      reads this, set u | u in instances :: instances[u].labels
    {
      map u | u in instances :: Labelled(instances[u].labels.m)
    }

    /** The deployment's maps are unused so far, or used for it only. */
    ghost predicate FitsDeployment(d: Deployment)
      reads this
    {
      Fits(d.labels, IdentityOf(d)) && Fits(d.annotations, IdentityOf(d))
    }

    /** Only the command's own maps and new ones come into use. */
    twostate predicate MapsAdded(command: Command)
      reads this`owner
    {
      forall m :: m in owner ==>
        || (m in old(owner) && owner[m] == old(owner)[m])
        || (m in MapsIn(command) && command.New? && owner[m] == IdentityOf(command.meta.deployment))
        || fresh(m)
    }

    /** Only the machine that the command creates comes into the store. */
    twostate predicate MachinesAdded(command: Command, labels: map<nat, Identity>)
      reads this`instances
    {
      forall u :: u in instances ==>
        || (u in old(instances) && instances[u] == old(instances)[u])
        || (!command.Delete? && u == command.uid && fresh(instances[u]) && CreatedFor(command, labels, instances[u].identity))
    }

    method DoNew(command: Command, ghost labels: map<nat, Identity>)
      requires labels == Labels()
      requires Valid() && command.New? && FitsDeployment(command.meta.deployment) && command.uid !in instances
      modifies this`instances, this`networks, this`owner, MapsIn(command)
      ensures Valid()
      ensures MapsAdded(command)
      ensures MachinesAdded(command, labels)
      ensures KeysFollow(command, labels, old(instances).Keys, instances.Keys)
    {
      var _ := NewMachine(command.meta, command.uid, command.ip, command.volumes, command.running, command.failure);
    }

    method DoClone(command: Command, ghost labels: map<nat, Identity>)
      requires labels == Labels()
      requires Valid() && command.Clone? && command.uid !in instances
      modifies this`instances, this`networks, this`owner, set u | u in instances :: instances[u].annotations
      ensures Valid()
      ensures MapsAdded(command)
      ensures MachinesAdded(command, labels)
      ensures KeysFollow(command, labels, old(instances).Keys, instances.Keys)
    {
      assert forall v :: v in instances ==> labels[v] == instances[v].identity;
      var _, _ := CloneMachine(command.service, command.uid, command.ip, command.volumes, command.running, command.failure);
    }

    method DoDelete(command: Command, ghost labels: map<nat, Identity>)
      requires labels == Labels()
      requires Valid() && network.Valid() && command.Delete?
      modifies this`instances, this`networks, network, set u | u in instances :: instances[u]
      ensures Valid() && network.Valid()
      ensures MachinesAdded(command, labels)
      ensures KeysFollow(command, labels, old(instances).Keys, instances.Keys)
    {
      var claimed, _ := DeleteMachine(command.service, command.platform, command.gone);
      if claimed.Some? {
        assert labels[claimed.value].service == command.service;
      }
    }

    method Do(command: Command, ghost labels: map<nat, Identity>)
      requires labels == Labels()
      requires Valid() && network.Valid()
      requires command.New? ==> FitsDeployment(command.meta.deployment)
      requires !command.Delete? ==> command.uid !in instances
      modifies this`instances, this`networks, this`owner, network, MapsIn(command)
      modifies (set u | u in instances :: instances[u]), set u | u in instances :: instances[u].annotations
      ensures Valid() && network.Valid()
      ensures MapsAdded(command)
      ensures MachinesAdded(command, labels)
      ensures KeysFollow(command, labels, old(instances).Keys, instances.Keys)
    {
      match command
      case New(_, _, _, _, _, _) => DoNew(command, labels);
      case Clone(_, _, _, _, _, _) => DoClone(command, labels);
      case Delete(_, _, _) => DoDelete(command, labels);
    }

    /** The commands can still be carried out: their maps fit, and their UIDs are fresh. */
    ghost predicate Ready(commands: seq<Command>)
      reads this
    {
      forall c :: c in commands ==> (c.New? ==> FitsDeployment(c.meta.deployment)) && (!c.Delete? ==> c.uid !in instances)
    }

    /** Every map in use was there before, is new, or came with one of the commands. */
    twostate predicate Within(commands: set<Command>)
      reads this
    {
      && (forall m :: m in owner ==> m in old(owner) || fresh(m) || exists c :: c in commands && m in MapsIn(c))
      && (forall u :: u in instances ==> (u in old(instances) && instances[u] == old(instances)[u]) || fresh(instances[u]))
    }

    /** The labels after a command, compared with those before. */
    static ghost predicate Follows(command: Command, before: map<nat, Identity>, after: map<nat, Identity>) {
      KeysFollow(command, before, before.Keys, after.Keys) &&
      forall u :: u in after ==>
        || (u in before && after[u] == before[u])
        || (!command.Delete? && u == command.uid && CreatedFor(command, before, after[u]))
    }

    /** From `first` to `last`, one entry for every prefix of the commands. */
    static ghost predicate Recorded(commands: seq<Command>, history: seq<map<nat, Identity>>, first: map<nat, Identity>, last: map<nat, Identity>) {
      && |history| == |commands| + 1 && history[0] == first && history[|commands|] == last
      && forall i :: 0 <= i < |commands| ==> Follows(commands[i], history[i], history[i + 1])
    }

    static lemma Prepend(commands: seq<Command>, first: map<nat, Identity>, second: map<nat, Identity>,
                         rest: seq<map<nat, Identity>>, last: map<nat, Identity>)
      requires |commands| > 0 && Follows(commands[0], first, second) && Recorded(commands[1..], rest, second, last)
      ensures Recorded(commands, [first] + rest, first, last)
    {
      forall i | 1 <= i < |commands| ensures Follows(commands[i], rest[i - 1], rest[i]) {
        assert commands[1..][i - 1] == commands[i];
      }
    }

    /** What a stored machine's labels say goes back to the command that created it. */
    static lemma {:induction false} SaidSince(commands: seq<Command>, history: seq<map<nat, Identity>>, n: nat, u: nat)
      requires |history| == |commands| + 1 && n <= |commands| && u in history[n]
      requires forall i :: 0 <= i < |commands| ==> Follows(commands[i], history[i], history[i + 1])
      ensures || (u in history[0] && history[n][u] == history[0][u])
              || exists i :: 0 <= i < n && !commands[i].Delete? && commands[i].uid == u
                             && CreatedFor(commands[i], history[i], history[n][u])
    {
      if n > 0 {
        assert Follows(commands[n - 1], history[n - 1], history[n]);
        if u in history[n - 1] && history[n][u] == history[n - 1][u] {
          SaidSince(commands, history, n - 1, u);
        }
      }
    }

    static lemma NewSays(commands: seq<Command>, history: seq<map<nat, Identity>>, first: map<nat, Identity>,
                         last: map<nat, Identity>, c: Command)
      requires Recorded(commands, history, first, last) && UidsApart(commands)
      requires c in commands && c.New? && c.uid !in first && c.uid in last
      ensures last[c.uid] == Identity(c.meta.deployment.service, c.meta.deployment.image, c.meta.deployment.namespace)
    {
      SaidSince(commands, history, |commands|, c.uid);
      var k :| 0 <= k < |commands| && commands[k] == c;
      var i :| 0 <= i < |commands| && !commands[i].Delete? && commands[i].uid == c.uid
               && CreatedFor(commands[i], history[i], last[c.uid]);
      assert i == k;
    }

    /** Labels that say what the machines were created for follow the command as the machines do. */
    static lemma LabelsFollow(command: Command, before: map<nat, Identity>, after: map<nat, Identity>,
                              stored: map<nat, Machine>, now: map<nat, Machine>)
      requires before.Keys == stored.Keys && forall u :: u in stored ==> before[u] == stored[u].identity
      requires after.Keys == now.Keys && forall u :: u in now ==> after[u] == now[u].identity
      requires forall u :: u in now ==>
                 || (u in stored && now[u] == stored[u])
                 || (!command.Delete? && u == command.uid && CreatedFor(command, before, now[u].identity))
      requires KeysFollow(command, before, stored.Keys, now.Keys)
      ensures Follows(command, before, after)
    {
    }

    lemma LabelsSay()
      requires Intact()
      ensures Labels().Keys == instances.Keys && forall u :: u in instances ==> Labels()[u] == instances[u].identity
    {
    }

    /** The first of the commands; the others can still be carried out afterwards. */
    method Step(command: Command, ghost rest: seq<Command>)
      requires Valid() && network.Valid() && Separate([command] + rest) && UidsApart([command] + rest) && Ready([command] + rest)
      modifies this`instances, this`networks, this`owner, network, MapsIn(command)
      modifies (set u | u in instances :: instances[u]), set u | u in instances :: instances[u].annotations
      ensures Valid() && network.Valid() && Ready(rest) && Within({command})
      ensures Follows(command, old(Labels()), Labels())
    {
      assert ([command] + rest)[0] == command;
      assert forall i :: 0 <= i < |rest| ==> ([command] + rest)[i + 1] == rest[i];
      ghost var before, stored := Labels(), instances;
      LabelsSay();
      Do(command, before);
      LabelsSay();
      LabelsFollow(command, before, Labels(), stored, instances);
      forall c | c in rest ensures (c.New? ==> FitsDeployment(c.meta.deployment)) && (!c.Delete? ==> c.uid !in instances) {
        assert c in [command] + rest;
      }
    }

    /**
      Any sequence of creations, clonings and deletions, with any failures, over deployments whose maps
      are separate: `history` is what all stored machines' labels say after each prefix of it. They say
      from the first moment on what the machine was created for, and never anything else.
     */
    method Execute(commands: seq<Command>) returns (ghost history: seq<map<nat, Identity>>)
      requires Valid() && network.Valid() && Separate(commands) && UidsApart(commands) && Ready(commands)
      modifies this`instances, this`networks, this`owner, network, (set c, m | c in commands && m in MapsIn(c) :: m)
      modifies (set u | u in instances :: instances[u]), owner.Keys
      ensures Valid() && network.Valid()
      ensures Recorded(commands, history, old(Labels()), Labels())
      ensures forall c :: c in commands && c.New? && c.uid in instances ==>
                var labels, d := instances[c.uid].labels.m, c.meta.deployment;
                && Get(labels, "ukfaas.io/service") == d.service
                && Get(labels, "ukfaas.io/image") == d.image
                && Get(labels, "ukfaas.io/namespace") == d.namespace
      decreases |commands|
    {
      ghost var first := Labels();
      history := [first];
      if commands != [] {
        assert commands == [commands[0]] + commands[1..];
        assert forall u :: u in instances ==> OwnedMachine(u, instances[u]);
        Step(commands[0], commands[1..]);
        ghost var second := Labels();
        ghost var rest := Execute(commands[1..]);
        Prepend(commands, first, second, rest, Labels());
        history := history + rest;
        forall c | c in commands && c.New? && c.uid in instances
          ensures Labels()[c.uid] == Identity(c.meta.deployment.service, c.meta.deployment.image, c.meta.deployment.namespace)
        {
          NewSays(commands, history, first, Labels(), c);
        }
      }
    }
  }

  /** One call on the store, with what the outside makes of it. */
  datatype Command =
    | New(meta: FunctionStore.FunctionMetaData, uid: nat, ip: IP, volumes: bool, running: bool, failure: Failure)
    | Clone(service: string, uid: nat, ip: IP, volumes: bool, running: bool, failure: Failure)
    | Delete(service: string, platform: bool, gone: bool)

  /** The maps that the command brings with it. */
  function MapsIn(command: Command): set<StringMap> {
    match command
    case New(meta, _, _, _, _, _) =>
      (if meta.deployment.labels != null then {meta.deployment.labels} else {})
      + (if meta.deployment.annotations != null then {meta.deployment.annotations} else {})
    case _ => {}
  }

  /** A machine of that identity is what the command creates; a clone's labels are those of a machine of the service. */
  ghost predicate CreatedFor(command: Command, before: map<nat, Identity>, id: Identity) {
    match command
    case New(meta, _, _, _, _, _) => id == Identity(meta.deployment.service, meta.deployment.image, meta.deployment.namespace)
    case Clone(service, _, _, _, _, _) => id.service == service && exists v :: v in before && before[v] == id
    case Delete(_, _, _) => false
  }

  /** Which machines are stored after the command, by those stored before and what their labels said. */
  ghost predicate KeysFollow(command: Command, labels: map<nat, Identity>, before: set<nat>, after: set<nat>) {
    match command
    case New(meta, uid, _, _, _, failure) => after == before + (if meta.package.target && failure.Never? then {uid} else {})
    case Clone(_, uid, _, _, _, failure) => after == before || (failure.Never? && after == before + {uid})
    case Delete(service, _, gone) =>
      after == before || (gone && exists v :: v in labels && labels[v].service == service && after == before - {v})
  }

  /** Different deployments have different maps; the same one may be used any number of times. */
  ghost predicate Separate(commands: seq<Command>) {
    forall c, d, m :: c in commands && d in commands && m in MapsIn(c) && m in MapsIn(d) ==>
      c.New? && d.New? && IdentityOf(c.meta.deployment) == IdentityOf(d.meta.deployment)
  }

  ghost predicate UidsApart(commands: seq<Command>) {
    forall i, j :: 0 <= i < j < |commands| && !commands[i].Delete? && !commands[j].Delete? ==> commands[i].uid != commands[j].uid
  }

  function IdentityOf(d: Deployment): Identity {
    Identity(d.service, d.image, d.namespace)
  }

  /** The address that is to be deleted, unless the platform fails before that. */
  function AddressOf(networks: map<nat, IP>, uid: nat, platform: bool): Option<IP> {
    if platform && uid in networks then Some(networks[uid]) else None
  }

  /** The address, if there is one, is deleted under the service; otherwise, or in a panic, nothing changes. */
  ghost predicate Deletes(before: Tables, after: Tables, service: string, ip: Option<IP>, ok: bool) {
    var deleted := if ip.None? then None else DelIP(before, service, ip.value);
    (ok <==> deleted.Some?) && after == if ok then deleted.value else before
  }

  function ServingIn(view: map<nat, Shown>, service: string): set<nat> {
    set u | u in view && view[u] == Shown(service, true)
  }

  /** Marking a machine and perhaps removing it, seen from the machines that run. */
  lemma ClaimedShown(view: map<nat, Shown>, view': map<nat, Shown>, u: nat, service: string, removed: bool)
    requires view' == if removed then view[u := Shown(service, false)] - {u} else view[u := Shown(service, false)]
    ensures view' == if removed then view - {u} else view[u := Shown(service, false)]
    ensures ServingIn(view', service) == ServingIn(view, service) - {u}
  {
  }

  /** What is shown after a machine that does not run any more has been found, by how far its destruction has come. */
  function AfterCheck(view: map<nat, Shown>, u: nat, service: string, inPlace: bool, ok: bool, gone: bool): map<nat, Shown> {
    if ok && gone then view - {u}
    else if ok || inPlace then view[u := Shown(service, false)]
    else view
  }

  datatype Shown = Shown(service: string, running: bool)

  function Show(m: Machine): Shown
    reads m, m.labels
  {
    Shown(Get(m.labels.m, SERVICE), m.running)
  }

  predicate Serving(m: Machine, service: string)
    reads m, m.labels
  {
    Get(m.labels.m, SERVICE) == service && m.running
  }
}
