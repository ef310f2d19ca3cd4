/** Drift between the saved inventory and the host: detecting it, repairing what is missing, and the quarantine ledger for
    what nobody manages. */
module Reconciliation {
  import opened Wrappers
  import opened Text
  import opened Journal

  datatype Vm = Vm(id: Id, name: string)

  datatype Bridge = Bridge(name: string, ports: seq<string>)

  datatype QuarantineStatus = Pending | Adopted | Released

  datatype Quarantined = Quarantined(id: Id, resourceType: string, hostId: string, message: string,
                                     status: QuarantineStatus, createdAt: Time, decidedAt: Option<Time>,
                                     decidedBy: Option<string>, decisionMessage: Option<string>)

  datatype Decision = Adopt | Release

  type Ledger = map<Id, Quarantined>

  // ----- the ledger -----

  predicate PendingFor(q: Quarantined, resourceType: string, hostId: string) {
    q.status == Pending && q.resourceType == resourceType && q.hostId == hostId
  }

  /** Filed by id, and at most one open question per resource. */
  ghost predicate LedgerFits(ledger: Ledger) {
    && (forall id :: id in ledger ==> ledger[id].id == id)
    && (forall a, b :: a in ledger && b in ledger && a != b && ledger[a].status == Pending && ledger[b].status == Pending ==>
          ledger[a].resourceType != ledger[b].resourceType || ledger[a].hostId != ledger[b].hostId)
  }

  /** Records are never dropped, and a decided one never changes. */
  ghost predicate LedgerGrows(before: Ledger, after: Ledger) {
    && (forall id :: id in before ==> id in after)
    && (forall id :: id in before && before[id].status != Pending ==> after[id] == before[id])
  }

  ghost predicate IsPending(ledger: Ledger, resourceType: string, hostId: string) {
    exists id :: id in ledger && PendingFor(ledger[id], resourceType, hostId)
  }

  /** Only new pending records are added. */
  ghost predicate OnlyAdds(before: Ledger, after: Ledger) {
    && (forall id :: id in before ==> id in after && after[id] == before[id])
    && (forall id :: id in after && id !in before ==> after[id].status == Pending)
  }

  lemma OnlyAddsFurther(a: Ledger, b: Ledger, c: Ledger)
    requires OnlyAdds(a, b) && OnlyAdds(b, c)
    ensures OnlyAdds(a, c) && LedgerGrows(a, c)
  {
  }

  lemma PendingStays(before: Ledger, after: Ledger, resourceType: string, hostId: string)
    requires OnlyAdds(before, after) && IsPending(before, resourceType, hostId)
    ensures IsPending(after, resourceType, hostId)
  {
    var id :| id in before && PendingFor(before[id], resourceType, hostId);
    assert PendingFor(after[id], resourceType, hostId);
  }

  lemma AddPending(ledger: Ledger, q: Quarantined)
    requires LedgerFits(ledger) && q.id !in ledger && q.status == Pending
    requires !IsPending(ledger, q.resourceType, q.hostId)
    ensures LedgerFits(ledger[q.id := q]) && OnlyAdds(ledger, ledger[q.id := q])
    ensures IsPending(ledger[q.id := q], q.resourceType, q.hostId)
  {
    var after := ledger[q.id := q];
    assert PendingFor(after[q.id], q.resourceType, q.hostId);
    forall other | other in ledger && ledger[other].status == Pending
      ensures ledger[other].resourceType != q.resourceType || ledger[other].hostId != q.hostId
    {
      assert !PendingFor(ledger[other], q.resourceType, q.hostId);
    }
  }

  // ----- runs of ledger calls -----

  /** The two ways the ledger is written: filing a resource under a fresh id, and deciding about a record. */
  datatype LedgerCall = File(id: Id, resourceType: string, hostId: string, message: string, now: Time)
                      | Settle(id: Id, decision: Decision, actor: string, note: Option<string>, now: Time)

  function Decided(q: Quarantined, decision: Decision, actor: string, note: Option<string>, now: Time): Quarantined {
    q.(status := if decision == Adopt then Adopted else Released, decidedAt := Some(now), decidedBy := Some(actor),
       decisionMessage := note)
  }

  ghost function LedgerAfter(ledger: Ledger, call: LedgerCall): Ledger {
    match call
    case File(id, resourceType, hostId, message, now) =>
      if id in ledger || IsPending(ledger, resourceType, hostId) then ledger
      else ledger[id := Quarantined(id, resourceType, hostId, message, Pending, now, None, None, None)]
    case Settle(id, decision, actor, note, now) =>
      if id !in ledger || ledger[id].status != Pending then ledger
      else ledger[id := Decided(ledger[id], decision, actor, note, now)]
  }

  ghost function LedgerRun(ledger: Ledger, calls: seq<LedgerCall>): Ledger {
    if calls == [] then ledger else LedgerAfter(LedgerRun(ledger, calls[..|calls| - 1]), calls[|calls| - 1])
  }

  lemma LedgerRunPush(ledger: Ledger, calls: seq<LedgerCall>, call: LedgerCall)
    ensures LedgerRun(ledger, calls + [call]) == LedgerAfter(LedgerRun(ledger, calls), call)
  {
    hide LedgerAfter;
    assert (calls + [call])[..|calls|] == calls;
  }

  lemma LedgerCallKeeps(ledger: Ledger, call: LedgerCall)
    requires LedgerFits(ledger)
    ensures LedgerFits(LedgerAfter(ledger, call)) && LedgerGrows(ledger, LedgerAfter(ledger, call))
  {
    if call.File? && call.id !in ledger && !IsPending(ledger, call.resourceType, call.hostId) {
      AddPending(ledger, LedgerAfter(ledger, call)[call.id]);
    }
  }

  /** Over any run of the ledger's own calls from any state it can be in: at most one open question per resource, nothing
      is forgotten, and a decided record never changes. */
  lemma {:induction false} DecisionsAreFinal(ledger: Ledger, calls: seq<LedgerCall>)
    requires LedgerFits(ledger)
    ensures LedgerFits(LedgerRun(ledger, calls)) && LedgerGrows(ledger, LedgerRun(ledger, calls))
  {
    hide LedgerAfter, LedgerFits;
    if calls != [] {
      DecisionsAreFinal(ledger, calls[..|calls| - 1]);
      LedgerCallKeeps(LedgerRun(ledger, calls[..|calls| - 1]), calls[|calls| - 1]);
    }
  }

  /** A record filed on the strength of an earlier look at the ledger keeps it in order exactly when no open record for the
      resource has been filed since. */
  lemma LateFilingExactly(ledger: Ledger, q: Quarantined)
    requires LedgerFits(ledger) && q.id !in ledger && q.status == Pending
    ensures LedgerFits(ledger[q.id := q]) <==> !IsPending(ledger, q.resourceType, q.hostId)
  {
    if IsPending(ledger, q.resourceType, q.hostId) {
      var other :| other in ledger && PendingFor(ledger[other], q.resourceType, q.hostId);
      var after := ledger[q.id := q];
      assert other in after && q.id in after && other != q.id && after[other].status == Pending;
    } else {
      AddPending(ledger, q);
    }
  }

  /** A decision about a record read earlier respects what has been decided exactly when the record is still open, or was
      decided in just the same words. */
  lemma LateDecisionExactly(ledger: Ledger, stale: Quarantined, decision: Decision, actor: string, note: Option<string>,
                            now: Time)
    requires stale.id in ledger && stale.status == Pending
    ensures var decided := Decided(stale, decision, actor, note, now);
            LedgerGrows(ledger, ledger[stale.id := decided]) <==>
            (ledger[stale.id].status == Pending || ledger[stale.id] == decided)
  {
    var after := ledger[stale.id := Decided(stale, decision, actor, note, now)];
    assert after[stale.id] == Decided(stale, decision, actor, note, now);
  }

  /** Each call files an unmanaged resource of the scan. */
  ghost predicate FilesOnly(calls: seq<LedgerCall>, findings: seq<Finding>) {
    forall call :: call in calls ==> call.File? && FromFinding(call, findings)
  }

  ghost predicate FromFinding(call: LedgerCall, findings: seq<Finding>)
    requires call.File?
  {
    exists f :: f in findings && f.kind == UnmanagedHost && f.hostId == Some(call.hostId)
                && f.resourceType == call.resourceType && f.message == call.message
  }

  // ----- what is missing -----

  ghost predicate VmMissing(vms: map<Id, Vm>, domains: set<string>, id: Id) {
    id in vms && vms[id].name !in domains
  }

  ghost predicate BridgeMissing(bridges: map<string, Bridge>, links: set<string>, name: string) {
    name in bridges && name !in links
  }

  predicate Repairable(f: Finding) {
    f.kind != UnmanagedHost && f.repairable && !f.destructive
  }

  // ----- findings -----

  function MissingFinding(resourceType: string, id: string, message: string): Finding {
    Finding(resourceType, id, None, MissingFromHost, message, true, false)
  }

  function UnmanagedFinding(resourceType: string, id: string, message: string): Finding {
    Finding(resourceType, id, Some(id), UnmanagedHost, message, false, false)
  }

  function VmMissingFinding(id: string): Finding {
    MissingFinding("vm", id, "VM record is missing from libvirt: " + id)
  }

  function VmUnmanagedFinding(id: string): Finding {
    UnmanagedFinding("vm", id, "VM " + id + " exists in libvirt but is not tracked")
  }

  /** A lost container cannot be rebuilt from its record. */
  function ContainerMissingFinding(id: string): Finding {
    Finding("container", id, None, MissingFromHost,
            "container " + id + " is missing from LXC; restore or import is required", false, true)
  }

  function ContainerUnmanagedFinding(id: string): Finding {
    UnmanagedFinding("container", id, "container " + id + " exists in LXC but is not tracked")
  }

  function VlanKey(id: Id): string {
    "vlan:" + id
  }

  /** The network service reports bridges by name and VLANs by a prefixed id. */
  function NetworkMissingFinding(key: string): Finding {
    var message := "network resource " + key + " is missing from host";
    if StartsWith(key, "vlan:") then MissingFinding("vlan", key[5..], message) else MissingFinding("bridge", key, message)
  }

  function BridgeMissingFinding(name: string): Finding {
    MissingFinding("bridge", name, "network resource " + name + " is missing from host")
  }

  function VlanMissingFinding(id: Id): Finding {
    MissingFinding("vlan", id, "network resource " + VlanKey(id) + " is missing from host")
  }

  function BridgeUnmanagedFinding(id: string): Finding {
    UnmanagedFinding("bridge", id, "network resource " + id + " exists on host but is not tracked")
  }

  function VlanKeys(ids: seq<Id>): (keys: seq<string>)
    ensures |keys| == |ids| && forall i :: 0 <= i < |ids| ==> keys[i] == VlanKey(ids[i])
  {
    seq(|ids|, i requires 0 <= i < |ids| => VlanKey(ids[i]))
  }

  /** A finding for each item, after those already found. */
  method Report(findings: seq<Finding>, items: seq<string>, finder: string -> Finding) returns (r: seq<Finding>)
    ensures forall f :: f in r <==> f in findings || Reports(f, items, finder)
    ensures findings <= r && |r| == |findings| + |items|
  {
    r := findings;
    for i := 0 to |items|
      invariant findings <= r && |r| == |findings| + i
      invariant forall f :: f in r <==> f in findings || Reports(f, items[..i], finder)
    {
      assert items[..i + 1] == items[..i] + [items[i]];
      r := r + [finder(items[i])];
    }
    assert items[..|items|] == items;
  }

  ghost predicate Reports(f: Finding, items: seq<string>, finder: string -> Finding) {
    exists item :: item in items && f == finder(item)
  }

  /** Differences in virtual machines and bridges. */
  ghost predicate Drift(f: Finding, vms: map<Id, Vm>, domains: set<string>, bridges: map<string, Bridge>,
                        links: set<string>)
  {
    || (exists id :: VmMissing(vms, domains, id) && f == VmMissingFinding(id))
    || (exists name :: name in domains && Untracked(vms, name) && f == VmUnmanagedFinding(name))
    || (exists name :: BridgeMissing(bridges, links, name) && f == BridgeMissingFinding(name))
    || (exists name :: name in links && name !in bridges && f == BridgeUnmanagedFinding(name))
  }

  ghost predicate Untracked(vms: map<Id, Vm>, name: string) {
    forall id :: id in vms ==> vms[id].name != name
  }

  ghost predicate OtherDrift(f: Finding, containersMissing: seq<string>, containersUnmanaged: seq<string>,
                             vlansMissing: seq<Id>)
  {
    || Reports(f, containersMissing, ContainerMissingFinding)
    || Reports(f, containersUnmanaged, ContainerUnmanagedFinding)
    || Reports(f, vlansMissing, VlanMissingFinding)
  }

  /** Whether some finding says this about a resource. */
  ghost predicate Says(findings: seq<Finding>, resourceType: string, resourceId: string, kind: FindingKind) {
    exists f :: f in findings && f.resourceType == resourceType && f.resourceId == resourceId && f.kind == kind
  }

  /** What a finding about a resource allows: what is missing is repaired unless that would destroy something, which only a
      container's loss does; what nobody manages is named by its host id and never repaired. */
  ghost predicate Proper(f: Finding) {
    match f.kind
    case MissingFromHost =>
      f.hostId == None && f.repairable == (f.resourceType != "container") && f.destructive == (f.resourceType == "container")
    case UnmanagedHost => f.hostId == Some(f.resourceId) && !f.repairable && !f.destructive
  }

  /** The resource and the kind of a finding. */
  ghost predicate About(f: Finding, resourceType: string, resourceId: string, kind: FindingKind) {
    f.resourceType == resourceType && f.resourceId == resourceId && f.kind == kind && Proper(f)
  }

  lemma VmFindings(id: string)
    ensures About(VmMissingFinding(id), "vm", id, MissingFromHost) && About(VmUnmanagedFinding(id), "vm", id, UnmanagedHost)
  {
    assert |"vm"| == 2 && |"container"| == 9;
  }

  lemma BridgeFindings(name: string)
    ensures About(BridgeMissingFinding(name), "bridge", name, MissingFromHost)
    ensures About(BridgeUnmanagedFinding(name), "bridge", name, UnmanagedHost)
  {
    assert |"bridge"| == 6 && |"container"| == 9;
  }

  lemma ContainerFindings(id: string)
    ensures About(ContainerMissingFinding(id), "container", id, MissingFromHost)
    ensures About(ContainerUnmanagedFinding(id), "container", id, UnmanagedHost)
  {
  }

  lemma VlanFindings(id: Id)
    ensures About(VlanMissingFinding(id), "vlan", id, MissingFromHost)
  {
    assert |"vlan"| == 4 && |"container"| == 9;
  }

  /** What a reported finding is about, and that it is true. */
  lemma DriftIsTrue(f: Finding, vms: map<Id, Vm>, domains: set<string>, bridges: map<string, Bridge>, links: set<string>,
                    missing: seq<string>, unmanaged: seq<string>, vlans: seq<Id>)
    requires Drift(f, vms, domains, bridges, links) || OtherDrift(f, missing, unmanaged, vlans)
    ensures Proper(f)
    ensures f.resourceType == "vm" ==>
              if f.kind == MissingFromHost then VmMissing(vms, domains, f.resourceId)
              else f.resourceId in domains && Untracked(vms, f.resourceId)
    ensures f.resourceType == "bridge" ==>
              if f.kind == MissingFromHost then BridgeMissing(bridges, links, f.resourceId)
              else f.resourceId in links && f.resourceId !in bridges
    ensures f.resourceType == "container" ==>
              if f.kind == MissingFromHost then f.resourceId in missing else f.resourceId in unmanaged
  {
    hide Proper, VmMissingFinding, VmUnmanagedFinding, BridgeMissingFinding, BridgeUnmanagedFinding, ContainerMissingFinding,
         ContainerUnmanagedFinding, VlanMissingFinding;
    assert |"vm"| == 2 && |"bridge"| == 6 && |"container"| == 9 && |"vlan"| == 4;
    if id :| VmMissing(vms, domains, id) && f == VmMissingFinding(id) {
      VmFindings(id);
    } else if name :| name in domains && Untracked(vms, name) && f == VmUnmanagedFinding(name) {
      VmFindings(name);
    } else if name :| BridgeMissing(bridges, links, name) && f == BridgeMissingFinding(name) {
      BridgeFindings(name);
    } else if name :| name in links && name !in bridges && f == BridgeUnmanagedFinding(name) {
      BridgeFindings(name);
    } else if item :| item in missing && f == ContainerMissingFinding(item) {
      ContainerFindings(item);
    } else if item :| item in unmanaged && f == ContainerUnmanagedFinding(item) {
      ContainerFindings(item);
    } else {
      var item :| item in vlans && f == VlanMissingFinding(item);
      VlanFindings(item);
    }
  }

  /** A scan says of a VM or bridge that it is missing, or unmanaged, exactly when it is, and every finding is proper. */
  lemma DriftExactly(findings: seq<Finding>, vms: map<Id, Vm>, domains: set<string>, bridges: map<string, Bridge>,
                     links: set<string>, missing: seq<string>, unmanaged: seq<string>, vlans: seq<Id>, x: string)
    requires forall f :: f in findings <==> Drift(f, vms, domains, bridges, links) || OtherDrift(f, missing, unmanaged, vlans)
    ensures forall f :: f in findings ==> Proper(f)
    ensures Says(findings, "vm", x, MissingFromHost) <==> x in vms && vms[x].name !in domains
    ensures Says(findings, "vm", x, UnmanagedHost) <==> x in domains && forall id :: id in vms ==> vms[id].name != x
    ensures Says(findings, "bridge", x, MissingFromHost) <==> x in bridges && x !in links
    ensures Says(findings, "bridge", x, UnmanagedHost) <==> x in links && x !in bridges
    ensures Says(findings, "container", x, MissingFromHost) <==> x in missing
    ensures Says(findings, "container", x, UnmanagedHost) <==> x in unmanaged
  {
    hide Proper, VmMissingFinding, VmUnmanagedFinding, BridgeMissingFinding, BridgeUnmanagedFinding, ContainerMissingFinding,
         ContainerUnmanagedFinding, VlanMissingFinding;
    forall f | f in findings
      ensures Proper(f)
      ensures f.resourceType == "vm" ==>
                if f.kind == MissingFromHost then VmMissing(vms, domains, f.resourceId)
                else f.resourceId in domains && Untracked(vms, f.resourceId)
      ensures f.resourceType == "bridge" ==>
                if f.kind == MissingFromHost then BridgeMissing(bridges, links, f.resourceId)
                else f.resourceId in links && f.resourceId !in bridges
      ensures f.resourceType == "container" ==>
                if f.kind == MissingFromHost then f.resourceId in missing else f.resourceId in unmanaged
    {
      DriftIsTrue(f, vms, domains, bridges, links, missing, unmanaged, vlans);
    }
    VmFindings(x);
    BridgeFindings(x);
    ContainerFindings(x);
    hide Drift, OtherDrift;
    DriftReported(vms, domains, bridges, links, missing, unmanaged, vlans, x);
  }

  lemma DriftReported(vms: map<Id, Vm>, domains: set<string>, bridges: map<string, Bridge>, links: set<string>,
                      missing: seq<string>, unmanaged: seq<string>, vlans: seq<Id>, x: string)
    ensures VmMissing(vms, domains, x) ==> Drift(VmMissingFinding(x), vms, domains, bridges, links)
    ensures x in domains && Untracked(vms, x) ==> Drift(VmUnmanagedFinding(x), vms, domains, bridges, links)
    ensures BridgeMissing(bridges, links, x) ==> Drift(BridgeMissingFinding(x), vms, domains, bridges, links)
    ensures x in links && x !in bridges ==> Drift(BridgeUnmanagedFinding(x), vms, domains, bridges, links)
    ensures x in missing ==> OtherDrift(ContainerMissingFinding(x), missing, unmanaged, vlans)
    ensures x in unmanaged ==> OtherDrift(ContainerUnmanagedFinding(x), missing, unmanaged, vlans)
  {
    hide VmMissingFinding, VmUnmanagedFinding, BridgeMissingFinding, BridgeUnmanagedFinding, ContainerMissingFinding,
         ContainerUnmanagedFinding, VlanMissingFinding;
  }

  /** A bridge name never looks like a VLAN key, so each is reported as what it is. */
  lemma NetworkFindings(names: seq<string>, ids: seq<Id>)
    requires forall name :: name in names ==> ':' !in name
    ensures forall f :: Reports(f, names + VlanKeys(ids), NetworkMissingFinding) <==>
                        Reports(f, names, BridgeMissingFinding) || Reports(f, ids, VlanMissingFinding)
  {
    forall name | name in names
      ensures NetworkMissingFinding(name) == BridgeMissingFinding(name)
    {
      assert |name| > 4 ==> name[4] in name && name[4] != ':';
    }
    forall id: Id
      ensures NetworkMissingFinding(VlanKey(id)) == VlanMissingFinding(id)
    {
      assert VlanKey(id)[5..] == id;
    }
    hide NetworkMissingFinding, BridgeMissingFinding, VlanMissingFinding, VlanKey;
    var keys := names + VlanKeys(ids);
    forall f: Finding
      ensures Reports(f, keys, NetworkMissingFinding) <==>
              Reports(f, names, BridgeMissingFinding) || Reports(f, ids, VlanMissingFinding)
    {
      if Reports(f, names, BridgeMissingFinding) {
        var name :| name in names && f == BridgeMissingFinding(name);
        assert name in keys;
      }
      if Reports(f, ids, VlanMissingFinding) {
        var id :| id in ids && f == VlanMissingFinding(id);
        var i :| 0 <= i < |ids| && ids[i] == id;
        assert keys[|names| + i] == VlanKey(id);
      }
    }
  }

  /** The saved inventory and the host it describes, with the quarantine ledger. */
  class Node {
    var vms: map<Id, Vm>
    var bridges: map<string, Bridge>
    var ledger: Ledger
    /** Defined libvirt domains and bridge devices present on the host, by name. */
    var domains: set<string>
    var links: set<string>

    ghost predicate Valid()
      reads this
    {
      && LedgerFits(ledger)
      && (forall name :: name in bridges ==> bridges[name].name == name && SafeId(name))
      && (forall id :: id in vms ==> vms[id].id == id)
    }

    constructor (vms: map<Id, Vm>, bridges: map<string, Bridge>, domains: set<string>, links: set<string>)
      requires forall name :: name in bridges ==> bridges[name].name == name && SafeId(name)
      requires forall id :: id in vms ==> vms[id].id == id
      ensures Valid() && ledger == map[]
      ensures this.vms == vms && this.bridges == bridges && this.domains == domains && this.links == links
    {
      this.vms, this.bridges, this.domains, this.links, ledger := vms, bridges, domains, links, map[];
    }

    // ----- detection -----

    method ReconcileVms() returns (missingInHost: seq<Id>, missingInStore: seq<string>)
      requires Valid()
      ensures forall id :: id in missingInHost <==> VmMissing(vms, domains, id)
      ensures forall name :: name in missingInStore <==> name in domains && Untracked(vms, name)
    {
      missingInHost, missingInStore := [], [];
      var todo := vms.Keys;
      while todo != {}
        invariant todo <= vms.Keys
        invariant forall id :: id in missingInHost <==> VmMissing(vms, domains, id) && id !in todo
        decreases todo
      {
        var id :| id in todo;
        if vms[id].name !in domains {
          missingInHost := missingInHost + [vms[id].id];
        }
        todo := todo - {id};
      }
      var storedNames := set id | id in vms :: vms[id].name;
      var names := domains;
      while names != {}
        invariant names <= domains
        invariant forall name :: name in missingInStore <==> name in domains && name !in names && name !in storedNames
        decreases names
      {
        var name :| name in names;
        if name !in storedNames {
          missingInStore := missingInStore + [name];
        }
        names := names - {name};
      }
    }

    method ReconcileBridges() returns (missingInHost: seq<string>, missingInStore: seq<string>)
      requires Valid()
      ensures forall name :: name in missingInHost <==> BridgeMissing(bridges, links, name)
      ensures forall name :: name in missingInStore <==> name in links && name !in bridges
    {
      missingInHost, missingInStore := [], [];
      var todo := bridges.Keys;
      while todo != {}
        invariant todo <= bridges.Keys
        invariant forall name :: name in missingInHost <==> BridgeMissing(bridges, links, name) && name !in todo
        decreases todo
      {
        var name :| name in todo;
        if bridges[name].name !in links {
          missingInHost := missingInHost + [bridges[name].name];
        }
        todo := todo - {name};
      }
      var names := links;
      while names != {}
        invariant names <= links
        invariant forall name :: name in missingInStore <==> name in links && name !in names && name !in bridges
        decreases names
      {
        var name :| name in names;
        if name !in bridges {
          missingInStore := missingInStore + [name];
        }
        names := names - {name};
      }
    }

    /** Compare the inventory with the host: exactly the differences are reported. The container and VLAN services report
        their own. */
    method DetectDrift(containersMissing: seq<string>, containersUnmanaged: seq<string>, vlansMissing: seq<Id>)
      returns (findings: seq<Finding>)
      requires Valid()
      ensures forall f :: f in findings <==>
                Drift(f, vms, domains, bridges, links) || OtherDrift(f, containersMissing, containersUnmanaged, vlansMissing)
    {
      hide VmMissingFinding, VmUnmanagedFinding, ContainerMissingFinding, ContainerUnmanagedFinding, NetworkMissingFinding,
           BridgeUnmanagedFinding, VlanMissingFinding, LedgerFits;
      var vmMissing, vmUnmanaged := ReconcileVms();
      var bridgeMissing, bridgeUnmanaged := ReconcileBridges();
      var networkMissing := bridgeMissing + VlanKeys(vlansMissing);
      findings := Report([], vmMissing, VmMissingFinding);
      findings := Report(findings, vmUnmanaged, VmUnmanagedFinding);
      findings := Report(findings, containersMissing, ContainerMissingFinding);
      findings := Report(findings, containersUnmanaged, ContainerUnmanagedFinding);
      findings := Report(findings, networkMissing, NetworkMissingFinding);
      findings := Report(findings, bridgeUnmanaged, BridgeUnmanagedFinding);
      NetworkFindings(bridgeMissing, vlansMissing);
    }

    // ----- quarantine -----

    /** The open record for the resource, or a new one. */
    method Quarantine(id: Id, resourceType: string, hostId: string, message: string, now: Time)
      returns (r: Result<Quarantined, AppError>)
      requires Valid() && id !in ledger
      modifies this`ledger
      ensures Valid() && OnlyAdds(old(ledger), ledger)
      ensures r.Ok? ==>
                && r.value.status == Pending && r.value.resourceType == resourceType && r.value.hostId == hostId
                && r.value.id in ledger && ledger[r.value.id] == r.value && IsPending(ledger, resourceType, hostId)
      ensures ledger == if r.Ok? then LedgerAfter(old(ledger), File(id, resourceType, hostId, message, now)) else old(ledger)
      ensures ledger.Keys <= old(ledger).Keys + {id}
    {
      if existing :| existing in ledger && PendingFor(ledger[existing], resourceType, hostId) {
        return Ok(ledger[existing]);
      }
      var record := Quarantined(id, resourceType, hostId, message, Pending, now, None, None, None);
      var saved: bool := *;
      if !saved {
        return Err(Internal);
      }
      AddPending(ledger, record);
      ledger := ledger[id := record];
      return Ok(record);
    }

    /** One decision per record. Only bridges can be adopted, and only while they exist on the host, with the ports seen
        there; the inventory is written before the ledger. */
    method DecideQuarantine(id: Id, decision: Decision, actor: string, message: Option<string>, ports: seq<string>, now: Time)
      returns (r: Result<Quarantined, AppError>)
      requires Valid()
      modifies this`ledger, this`bridges
      ensures Valid() && LedgerGrows(old(ledger), ledger)
      ensures id !in old(ledger) ==> r == Err(NotFound)
      ensures id in old(ledger) && old(ledger)[id].status != Pending ==> r == Err(Conflict)
      ensures r.Ok? ==>
                && ledger == LedgerAfter(old(ledger), Settle(id, decision, actor, message, now)) && r.value == ledger[id]
                && r.value == Decided(old(ledger)[id], decision, actor, message, now)
                && (decision == Adopt ==>
                      r.value.resourceType == "bridge" && r.value.hostId in links && r.value.hostId in bridges)
      ensures r.Err? ==> ledger == old(ledger)
      ensures bridges != old(bridges) ==>
                && decision == Adopt && id in old(ledger) && old(ledger)[id].resourceType == "bridge"
                && var name := old(ledger)[id].hostId; name in links && bridges == old(bridges)[name := Bridge(name, ports)]
    {
      if id !in ledger {
        return Err(NotFound);
      }
      var record := ledger[id];
      if record.status != Pending {
        return Err(Conflict);
      }
      if decision == Adopt {
        if record.resourceType != "bridge" || !SafeId(record.hostId) {
          return Err(Validation);
        }
        if record.hostId !in links {
          return Err(NotFound);
        }
        var adopted: bool := *;
        if !adopted {
          return Err(Internal);
        }
        bridges := bridges[record.hostId := Bridge(record.hostId, ports)];
        record := record.(status := Adopted);
      } else {
        record := record.(status := Released);
      }
      record := record.(decidedAt := Some(now), decidedBy := Some(actor), decisionMessage := message);
      var saved: bool := *;
      if !saved {
        return Err(Internal);
      }
      ledger := ledger[id := record];
      return Ok(record);
    }

    /** File every unmanaged resource of a scan. */
    method PersistUnmanaged(findings: seq<Finding>, freshIds: seq<Id>, now: Time)
      returns (r: Result<(), AppError>, ghost calls: seq<LedgerCall>)
      requires Valid()
      requires |freshIds| == |findings| && Distinct(freshIds) && forall id :: id in freshIds ==> id !in ledger
      modifies this`ledger
      ensures Valid() && OnlyAdds(old(ledger), ledger)
      ensures ledger == LedgerRun(old(ledger), calls) && FilesOnly(calls, findings)
      ensures r.Ok? ==> forall i :: 0 <= i < |findings| ==> Filed(findings[i], ledger)
    {
      hide LedgerFits, OnlyAdds, IsPending, LedgerAfter;
      NothingAdded(ledger);
      calls := [];
      for i := 0 to |findings|
        invariant Valid() && OnlyAdds(old(ledger), ledger)
        invariant ledger == LedgerRun(old(ledger), calls) && FilesOnly(calls, findings)
        invariant forall k :: i <= k < |freshIds| ==> freshIds[k] !in ledger
        invariant forall k :: 0 <= k < i ==> Filed(findings[k], ledger)
      {
        var f := findings[i];
        if f.kind == UnmanagedHost && f.hostId.Some? {
          var before := ledger;
          var q := Quarantine(freshIds[i], f.resourceType, f.hostId.value, f.message, now);
          OnlyAddsFurther(old(ledger), before, ledger);
          if q.Err? {
            return Err(q.error), calls;
          }
          calls := NextCall(old(ledger), calls, findings, i, freshIds[i], now);
          FiledStays(before, ledger, findings, i);
        }
      }
      return Ok(()), calls;
    }

    // ----- repair -----

    /** Define a saved VM again; the domain must be stopped, libvirt may refuse, and its answer may be lost. */
    method RepairVm(id: Id) returns (r: Result<(), AppError>)
      requires Valid()
      modifies this`domains
      ensures id !in vms ==> r == Err(NotFound)
      ensures r.Ok? ==> id in vms && domains == old(domains) + {vms[id].name}
      ensures r.Err? ==> domains == old(domains) || (id in vms && domains == old(domains) + {vms[id].name})
    {
      if id !in vms {
        return Err(NotFound);
      }
      var stopped: bool := *;
      if !stopped {
        return Err(Conflict);
      }
      var defined: bool := *;
      var answered: bool := *;
      if defined {
        domains := domains + {vms[id].name};
      }
      return if defined && answered then Ok(()) else Err(Hypervisor);
    }

    /** Create a saved bridge again; a device of that name must not exist. A failed configuration removes only the
        device just created. */
    method RepairBridge(name: string) returns (r: Result<(), AppError>)
      requires Valid()
      modifies this`links
      ensures name !in bridges ==> r == Err(NotFound)
      ensures r.Ok? ==> name in bridges && name !in old(links) && links == old(links) + {name}
      ensures r.Err? ==> links == old(links) || (name in bridges && links == old(links) + {name})
    {
      if name !in bridges {
        return Err(NotFound);
      }
      var bridge := bridges[name];
      var added: bool := *;
      var answered: bool := *;
      if bridge.name in links || !added {
        return Err(Hypervisor);
      }
      links := links + {bridge.name};
      if !answered {
        return Err(Hypervisor);
      }
      var configured: bool := *;
      if !configured {
        var removed: bool := *;
        if removed {
          links := links - {bridge.name};
        }
        return Err(Hypervisor);
      }
      return Ok(());
    }

    /** Work through the approved findings. Whatever happens, nothing that was on the host is removed, nothing is adopted,
        and only the ledger gains records; on success every repairable VM and bridge is there. */
    method RepairFindings(findings: seq<Finding>, freshIds: seq<Id>, now: Time)
      returns (r: Result<(), AppError>, ghost calls: seq<LedgerCall>)
      requires Valid()
      requires |freshIds| == |findings| && Distinct(freshIds) && forall id :: id in freshIds ==> id !in ledger
      modifies this`domains, this`links, this`ledger
      ensures Valid() && OnlyAdds(old(ledger), ledger)
      ensures HostGrows(vms, old(domains), domains, bridges, old(links), links)
      ensures ledger == LedgerRun(old(ledger), calls) && FilesOnly(calls, findings)
      ensures r.Ok? ==> forall i :: 0 <= i < |findings| ==> Repaired(findings[i], vms, domains, bridges, links)
      ensures r.Ok? ==> forall i :: 0 <= i < |findings| ==> Filed(findings[i], ledger)
    {
      hide LedgerFits, OnlyAdds, IsPending, LedgerAfter, FromFinding;
      NothingAdded(ledger);
      calls := [];
      for i := 0 to |findings|
        invariant Valid() && OnlyAdds(old(ledger), ledger)
        invariant ledger == LedgerRun(old(ledger), calls) && FilesOnly(calls, findings)
        invariant HostGrows(vms, old(domains), domains, bridges, old(links), links)
        invariant forall k :: i <= k < |freshIds| ==> freshIds[k] !in ledger
        invariant forall k :: 0 <= k < i ==> Repaired(findings[k], vms, domains, bridges, links)
        invariant forall k :: 0 <= k < i ==> Filed(findings[k], ledger)
      {
        var f := findings[i];
        var before := ledger;
        if f.kind == UnmanagedHost {
          NothingAdded(ledger);
          if f.hostId.Some? {
            var q := Quarantine(freshIds[i], f.resourceType, f.hostId.value, f.message, now);
            OnlyAddsFurther(old(ledger), before, ledger);
            if q.Err? {
              return Err(q.error), calls;
            }
            calls := NextCall(old(ledger), calls, findings, i, freshIds[i], now);
          }
          FiledStays(before, ledger, findings, i);
          continue;
        }
        if !f.repairable || f.destructive {
          continue;
        }
        r := RepairOne(f);
        if r.Err? {
          return;
        }
      }
      return Ok(()), calls;
    }

    /** The repair a finding asks for; other resource types are repaired elsewhere and may fail. */
    method RepairOne(f: Finding) returns (r: Result<(), AppError>)
      requires Valid() && Repairable(f)
      modifies this`domains, this`links
      ensures HostGrows(vms, old(domains), domains, bridges, old(links), links)
      ensures r.Ok? ==> Repaired(f, vms, domains, bridges, links)
    {
      if f.resourceType == "vm" {
        r := RepairVm(f.resourceId);
      } else if f.resourceType == "container" {
        var ok: bool := *;
        r := if ok then Ok(()) else Err(Hypervisor);
      } else if f.resourceType == "bridge" {
        r := RepairBridge(f.resourceId);
      } else if f.resourceType == "vlan" {
        var ok: bool := *;
        r := if ok then Ok(()) else Err(Hypervisor);
      } else {
        r := Ok(());
      }
    }
  }

  ghost predicate Distinct(ids: seq<Id>) {
    forall i, j :: 0 <= i < j < |ids| ==> ids[i] != ids[j]
  }

  /** A repairable VM or bridge finding that has been dealt with. */
  ghost predicate Repaired(f: Finding, vms: map<Id, Vm>, domains: set<string>, bridges: map<string, Bridge>,
                           links: set<string>)
  {
    Repairable(f) ==>
      && (f.resourceType == "vm" ==> f.resourceId in vms && vms[f.resourceId].name in domains)
      && (f.resourceType == "bridge" ==> f.resourceId in bridges && f.resourceId in links)
  }

  /** An unmanaged resource has an open record. */
  ghost predicate Filed(f: Finding, ledger: Ledger) {
    f.kind == UnmanagedHost && f.hostId.Some? ==> IsPending(ledger, f.resourceType, f.hostId.value)
  }

  /** Nothing leaves the host, and what appears there is in the inventory. */
  ghost predicate HostGrows(vms: map<Id, Vm>, domains0: set<string>, domains1: set<string>, bridges: map<string, Bridge>,
                            links0: set<string>, links1: set<string>)
  {
    && domains0 <= domains1 && links0 <= links1
    && (forall name :: name in domains1 && name !in domains0 ==> !Untracked(vms, name))
    && (forall name :: name in links1 && name !in links0 ==> name in bridges)
  }

  /** After a successful repair of a complete scan, the next scan of VMs and bridges finds nothing missing and reports
      exactly the unmanaged resources again. */
  lemma RepairClosesDrift(findings: seq<Finding>, vms: map<Id, Vm>, domains0: set<string>, domains1: set<string>,
                          bridges: map<string, Bridge>, links0: set<string>, links1: set<string>)
    requires forall f :: Drift(f, vms, domains0, bridges, links0) ==> f in findings
    requires HostGrows(vms, domains0, domains1, bridges, links0, links1)
    requires forall i :: 0 <= i < |findings| ==> Repaired(findings[i], vms, domains1, bridges, links1)
    ensures forall id :: !VmMissing(vms, domains1, id)
    ensures forall name :: !BridgeMissing(bridges, links1, name)
    ensures forall f :: Drift(f, vms, domains1, bridges, links1) <==>
                        Drift(f, vms, domains0, bridges, links0) && f.kind == UnmanagedHost
  {
    forall id
      ensures !VmMissing(vms, domains1, id)
    {
      if VmMissing(vms, domains0, id) {
        var f := VmMissingFinding(id);
        assert Drift(f, vms, domains0, bridges, links0);
        var i :| 0 <= i < |findings| && findings[i] == f;
        assert Repaired(findings[i], vms, domains1, bridges, links1);
      }
    }
    forall name
      ensures !BridgeMissing(bridges, links1, name)
    {
      if BridgeMissing(bridges, links0, name) {
        var f := BridgeMissingFinding(name);
        assert Drift(f, vms, domains0, bridges, links0);
        var i :| 0 <= i < |findings| && findings[i] == f;
        assert Repaired(findings[i], vms, domains1, bridges, links1);
      }
    }
  }

  lemma NothingAdded(ledger: Ledger)
    ensures OnlyAdds(ledger, ledger)
  {
  }

  /** The calls with the one for an unmanaged finding added. */
  lemma NextCall(ledger: Ledger, calls: seq<LedgerCall>, findings: seq<Finding>, i: nat, id: Id, now: Time)
    returns (more: seq<LedgerCall>)
    requires i < |findings| && findings[i].kind == UnmanagedHost && findings[i].hostId.Some? && FilesOnly(calls, findings)
    ensures FilesOnly(more, findings)
    ensures var f := findings[i];
            LedgerRun(ledger, more)
            == LedgerAfter(LedgerRun(ledger, calls), File(id, f.resourceType, f.hostId.value, f.message, now))
  {
    hide LedgerAfter;
    var f := findings[i];
    var call := File(id, f.resourceType, f.hostId.value, f.message, now);
    more := calls + [call];
    LedgerRunPush(ledger, calls, call);
    assert f in findings && FromFinding(call, findings);
  }

  lemma FiledStays(before: Ledger, after: Ledger, findings: seq<Finding>, n: nat)
    requires OnlyAdds(before, after) && n <= |findings|
    requires forall k :: 0 <= k < n ==> Filed(findings[k], before)
    ensures forall k :: 0 <= k < n ==> Filed(findings[k], after)
  {
    hide OnlyAdds, IsPending;
    forall k | 0 <= k < n
      ensures Filed(findings[k], after)
    {
      var f := findings[k];
      if f.kind == UnmanagedHost && f.hostId.Some? {
        PendingStays(before, after, f.resourceType, f.hostId.value);
      }
    }
  }
}
