/** The driver, its version-substituting client and the trainer engine it builds, as objects. */
module NcclDriver {
  import opened Prelude
  import opened Identity
  import opened Nccl

  /** The wrapped client: it records what it is asked. */
  class InnerClient {
    var sent: seq<InnerCall>

    constructor ()
      ensures sent == []
    {
      sent := [];
    }

    method Receive(call: InnerCall)
      modifies this
      ensures sent == old(sent) + [call]
    {
      sent := sent + [call];
    }
  }

  class RolloutCoreWeightSyncClient {
    const inner: InnerClient
    var pendingLabel: Option<string>

    constructor (inner: InnerClient)
      ensures this.inner == inner && pendingLabel == None
    {
      this.inner := inner;
      pendingLabel := None;
    }

    method SetTarget(target: UpdateTarget)
      modifies this
      ensures pendingLabel == Some(target.Label())
    {
      pendingLabel := Some(target.Label());
    }

    method StartWeightUpdate()
      modifies inner
      ensures inner.sent == old(inner.sent) + [Opened]
    {
      inner.Receive(Opened);
    }

    method UpdateWeights()
      modifies inner
      ensures inner.sent == old(inner.sent) + [Updated]
    {
      inner.Receive(Updated);
    }

    method FinishWeightUpdate(weightVersion: Option<string>) returns (ok: bool)
      modifies inner
      ensures ok == (Explicit(weightVersion) || pendingLabel.Some?)
      ensures inner.sent == old(inner.sent) +
        if !ok then [] else
          [Finished(if Explicit(weightVersion) then weightVersion.value else pendingLabel.value, Explicit(weightVersion))]
    {
      var written := if Explicit(weightVersion) then weightVersion else pendingLabel;
      ok := written.Some?;
      if ok {
        inner.Receive(Finished(written.value, Explicit(weightVersion)));
      }
    }
  }

  class TrainerEngine {
    const client: RolloutCoreWeightSyncClient

    constructor (client: RolloutCoreWeightSyncClient)
      ensures this.client == client
    {
      this.client := client;
    }

    /** Upstream's round trip, following whatever script it follows. */
    method SendWeights(script: seq<TrainerStep>) returns (ok: bool)
      modifies client.inner
      ensures client.inner.sent == old(client.inner.sent) + Sent(client.pendingLabel, script).0
      ensures ok == Sent(client.pendingLabel, script).1
    {
      ok := true;
      var i := 0;
      assert script[0..] == script;
      while i < |script|
        invariant i <= |script| && ok
        invariant client.inner.sent + Sent(client.pendingLabel, script[i..]).0
               == old(client.inner.sent) + Sent(client.pendingLabel, script).0
        invariant Sent(client.pendingLabel, script[i..]).1 == Sent(client.pendingLabel, script).1
      {
        assert script[i..][1..] == script[i + 1..];
        ghost var before := client.inner.sent;
        ghost var rest := Sent(client.pendingLabel, script[i + 1..]).0;
        match script[i] {
          case Opens => client.StartWeightUpdate();
          case Updates => client.UpdateWeights();
          case Finishes(version) => ok := client.FinishWeightUpdate(version);
          case Dies => ok := false;
        }
        if !ok {
          return;
        }
        assert client.inner.sent + rest == before + Sent(client.pendingLabel, script[i..]).0;
        i := i + 1;
      }
      assert Sent(client.pendingLabel, script[i..]).0 == [];
    }
  }

  ghost function PendingLabels(clients: seq<RolloutCoreWeightSyncClient>): (written: seq<Option<string>>)
    reads clients
    ensures |written| == |clients| && forall i :: 0 <= i < |clients| ==> written[i] == clients[i].pendingLabel
  {
    seq(|clients|, i requires 0 <= i < |clients| reads clients => clients[i].pendingLabel)
  }

  class NCCLWeightTransferDriver {
    const inner: InnerClient
    const hash: Hash
    var provenance: Option<WeightProvenance>
    var engine: TrainerEngine?
    var sync: RolloutCoreWeightSyncClient?
    var identity: Option<WeightIdentity>
    var device: Option<int>
    /** History: every client made so far, and what Nccl.Driver remembers. */
    ghost var clients: seq<RolloutCoreWeightSyncClient>
    ghost var syncNo: nat
    ghost var engineNo: nat
    ghost var lastRead: Option<seq<ParamSpec>>
    ghost var log: seq<Entry>

    ghost function Repr(): set<object>
      reads this
    {
      {this, inner} + set c <- clients
    }

    ghost predicate Valid()
      reads this, inner, clients
    {
      && (forall i :: 0 <= i < |clients| ==> clients[i].inner == inner)
      && (forall i, k :: 0 <= i < k < |clients| ==> clients[i] != clients[k])
      && (sync != null ==> syncNo < |clients| && clients[syncNo] == sync)
      && (engine != null ==> engineNo < |clients| && clients[engineNo] == engine.client && sync != null)
      && |log| == |inner.sent|
      && forall i :: 0 <= i < |log| ==> log[i].call == inner.sent[i]
    }

    ghost function View(): (d: Driver)
      requires Valid()
      reads this, inner, clients
      ensures d.Valid()
    {
      Driver(
        provenance,
        PendingLabels(clients),
        if sync == null then None else Some(syncNo),
        if engine == null then None else Some(engineNo),
        identity, device, lastRead, log)
    }

    constructor (inner: InnerClient, provenance: Option<WeightProvenance>, hash: Hash)
      requires inner.sent == []
      ensures this.inner == inner && this.hash == hash
      ensures Valid() && View() == NewDriver(provenance)
    {
      this.inner, this.hash, this.provenance := inner, hash, provenance;
      engine, sync, identity, device := null, null, None, None;
      clients, syncNo, engineNo, lastRead, log := [], 0, 0, None, [];
    }

    method ComputeIdentity(metadata: Option<seq<ParamSpec>>)
      requires Valid()
      modifies this`identity, this`lastRead
      ensures Valid() && View() == Identify(old(View()), metadata, hash)
    {
      if identity.None? && metadata.Some? {
        identity := FromParamSpecs(metadata.value, provenance, hash);
        lastRead := metadata;
      }
    }

    method Declare(p: WeightProvenance, metadata: Option<seq<ParamSpec>>) returns (out: Outcome)
      requires Valid()
      modifies this`provenance, this`identity, this`lastRead
      ensures Valid() && (View(), out) == DoDeclare(old(View()), p, metadata, hash)
    {
      provenance := Some(p);
      identity := None;
      ComputeIdentity(metadata);
      out := if identity.Some? then Staged(identity.value) else Unreadable;
      assert View().clients == old(View().clients);
    }

    /** A fresh wrapper around the inner client becomes the current one. */
    method Wrap()
      requires Valid()
      modifies this`sync, this`clients, this`syncNo
      ensures Valid() && sync != null && fresh(sync) && clients == old(clients) + [sync]
      ensures View() == old(View()).(clients := old(View()).clients + [None], sync := Some(|old(clients)|))
    {
      var client := new RolloutCoreWeightSyncClient(inner);
      assert forall i :: 0 <= i < |clients| ==> clients[i] != client;
      sync := client;
      clients, syncNo := clients + [client], |clients|;
      assert PendingLabels(clients) == old(View()).clients + [None];
    }

    /** The trainer engine is built over the current wrapper. */
    method Build()
      requires Valid() && sync != null
      modifies this`engine, this`engineNo
      ensures Valid() && View() == old(View()).(engine := Some(syncNo))
    {
      engine := new TrainerEngine(sync);
      engineNo := syncNo;
      assert PendingLabels(clients) == old(View()).clients;
    }

    method Initialize(on: Option<int>, build: Build) returns (out: Outcome)
      requires Valid()
      modifies this`device, this`sync, this`engine, this`clients, this`syncNo, this`engineNo
      ensures Valid() && (View(), out) == DoInitialize(old(View()), on, build)
      ensures fresh(Repr() - old(Repr()))
    {
      device := on;
      assert View() == old(View()).(device := on) by {
        assert PendingLabels(clients) == old(View()).clients;
      }
      if build.FactoryFails? {
        return Failed;
      }
      Wrap();
      if build.BuilderFails? {
        return Failed;
      }
      Build();
      out := Fine;
    }

    method Aim(target: UpdateTarget)
      requires Valid() && sync != null
      modifies sync
      ensures Valid()
      ensures View() == old(View()).(clients := old(View()).clients[syncNo := Some(target.Label())])
    {
      sync.SetTarget(target);
      assert PendingLabels(clients) == old(View()).clients[syncNo := Some(target.Label())];
    }

    method Push(target: UpdateTarget, script: seq<TrainerStep>) returns (ok: bool)
      requires Valid() && engine != null
      modifies this`log, inner
      ensures Valid()
      ensures var (calls, ended) := Sent(old(View()).clients[engineNo], script);
        ok == ended && View() == old(View()).(log := old(log) + Tag(calls, target, old(View()).Read(hash)))
    {
      ok := engine.SendWeights(script);
      log := log + Tag(Sent(old(View()).clients[engineNo], script).0, target, old(View()).Read(hash));
      assert PendingLabels(clients) == old(View()).clients;
    }

    method Transfer(target: UpdateTarget, on: Option<int>, metadata: Option<seq<ParamSpec>>, script: seq<TrainerStep>)
      returns (out: Outcome)
      requires Valid()
      modifies this`identity, this`lastRead, this`log, inner, clients
      ensures Valid() && (View(), out) == DoTransfer(old(View()), target, on, metadata, script, hash)
    {
      if engine == null || sync == null || DeviceMismatch(device, on) {
        return NotConfigured;
      }
      ComputeIdentity(metadata);
      if identity.None? {
        return Unreadable;
      }
      if identity.value != target.identity {
        return Mismatched;
      }
      Aim(target);
      var ok := Push(target, script);
      out := if ok then Staged(identity.value) else Failed;
    }

    method Shutdown(raises: bool) returns (out: Outcome)
      requires Valid()
      modifies this`engine
      ensures Valid() && (View(), out) == Do(old(View()), Op.Shutdown(raises), hash)
    {
      if engine != null && raises {
        return Failed;
      }
      engine := null;
      out := Fine;
      assert View().clients == old(View().clients);
    }
  }
}
