/** The roadside-unit side of the CAM application (`CAMServer`): each
    server buffers the records it receives; on stop it contributes its
    buffer to the process-wide store and bumps the process-wide stop
    counter, and the server whose stop brings the counter to the number of
    RSUs runs the clustering and sends the centres to the switch.

    ns-3 dispatches events on one thread, so every operation here runs to
    completion before the next one starts. */
module CamServer {
  import opened Wire
  import opened Cam
  import opened Clustering

  /** The records `HandleRead` makes of the datagrams it drains, in
      arrival order; `stale[k]` is what the uninitialised local record
      held when datagram k was copied into it. */
  function DecodeAll(packets: seq<seq<byte>>, stale: seq<seq<byte>>): (r: seq<CamData>)
    requires |stale| == |packets| && forall k :: 0 <= k < |stale| ==> |stale[k]| == CAM_SIZE
    ensures |r| == |packets|
  {
    if packets == [] then []
    else
      var n := |packets| - 1;
      DecodeAll(packets[..n], stale[..n]) + [Decode(packets[n], stale[n])]
  }

  /** The datagrams a sequence of `SendCAM` calls puts on the wire. */
  function EncodeAll(records: seq<CamData>): (r: seq<seq<byte>>)
    ensures |r| == |records|
  {
    if records == [] then []
    else EncodeAll(records[..|records| - 1]) + [Encode(records[|records| - 1])]
  }

  /** A server that receives the datagrams of a run of sends decodes
      exactly the records that were sent, in the same order. */
  lemma {:induction false} DecodeAllEncodeAll(records: seq<CamData>, stale: seq<seq<byte>>)
    requires |stale| == |records| && forall k :: 0 <= k < |stale| ==> |stale[k]| == CAM_SIZE
    ensures DecodeAll(EncodeAll(records), stale) == records
  {
    if records != [] {
      var n := |records| - 1;
      var packets := EncodeAll(records);
      assert packets[..n] == EncodeAll(records[..n]);
      assert packets[n] == Encode(records[n]);
      var pre := stale[..n];
      assert forall k :: 0 <= k < |pre| ==> |pre[k]| == CAM_SIZE;
      DecodeAllEncodeAll(records[..n], pre);
      EncodeDecodeRoundTrip(records[n], stale[n]);
      assert DecodeAll(packets, stale) == DecodeAll(packets[..n], pre) + [Decode(packets[n], stale[n])];
      assert records == records[..n] + [records[n]];
    }
  }

  /** Process-wide state shared by every server: `globalCAMData` and the
      static `CAMServer::numStoppedRSUs`, which starts at 0 and is never
      reset. Two ghost fields record history for the proofs: every batch
      ever contributed, and the counter value at each clustering run. */
  class Globals {
    var camData: seq<seq<CamData>>
    var numStoppedRsus: nat
    ghost var contributed: seq<seq<CamData>>
    ghost var firedAt: seq<nat>

    ghost predicate Valid()
      reads this
    {
      && |contributed| == numStoppedRsus
      && (forall k :: 0 <= k < |firedAt| ==> 1 <= firedAt[k] <= numStoppedRsus)
      && (forall k, l :: 0 <= k < l < |firedAt| ==> firedAt[k] < firedAt[l])
      && (firedAt == [] ==> camData == contributed)
    }

    /** The state at process start. */
    constructor ()
      ensures Valid()
      ensures camData == [] && numStoppedRsus == 0
      ensures contributed == [] && firedAt == []
    {
      camData := [];
      numStoppedRsus := 0;
      contributed := [];
      firedAt := [];
    }
  }

  class CamServer {
    /** `GetNode()->GetId()`. */
    const nodeId: u32
    /** `m_numRSUs`: the number of servers the barrier waits for. */
    const numRsus: u32
    const globals: Globals
    /** `m_camData`: the records received so far. */
    var camData: seq<CamData>
    /** The datagrams `SendClusters` has sent to the switch. */
    var sentToSwitch: seq<seq<byte>>

    constructor (nodeId: u32, numRsus: u32, globals: Globals)
      ensures this.nodeId == nodeId && this.numRsus == numRsus && this.globals == globals
      ensures camData == [] && sentToSwitch == []
    {
      this.nodeId := nodeId;
      this.numRsus := numRsus;
      this.globals := globals;
      camData := [];
      sentToSwitch := [];
    }

    /** Drains the socket: every datagram, whatever its length, is copied
        into a record that is appended; nothing is ever removed. */
    method HandleRead(packets: seq<seq<byte>>, stale: seq<seq<byte>>)
      requires |stale| == |packets| && forall k :: 0 <= k < |stale| ==> |stale[k]| == CAM_SIZE
      modifies this`camData
      ensures camData == old(camData) + DecodeAll(packets, stale)
    {
      var k := 0;
      while k < |packets|
        invariant 0 <= k <= |packets|
        invariant camData == old(camData) + DecodeAll(packets[..k], stale[..k])
      {
        var data := Decode(packets[k], stale[k]);
        camData := camData + [data];
        k := k + 1;
        assert packets[..k][..k - 1] == packets[..k - 1];
        assert stale[..k][..k - 1] == stale[..k - 1];
      }
      assert packets[..k] == packets && stale[..k] == stale;
    }

    /** Appends this server's whole buffer to the global store as one batch. */
    method UpdateGlobalCamData()
      modifies globals`camData, globals`contributed
      ensures globals.camData == old(globals.camData) + [camData]
      ensures globals.contributed == old(globals.contributed) + [camData]
    {
      globals.camData := globals.camData + [camData];
      globals.contributed := globals.contributed + [camData];
    }

    /** Flattens the store, regroups its rows by the k-means labels and
        overwrites the store with the 4 clusters. The k-means call itself
        is not modelled: `labels` and `centers` are its results. */
    method PerformClustering(labels: seq<int>, centers: Matrix) returns (result: Matrix)
      requires ValidLabels(labels, TotalLength(globals.camData))
      modifies globals`camData
      ensures globals.camData == Regroup(Flatten(old(globals.camData)), labels, nodeId)
      ensures result == centers
    {
      var numDataPoints := CountDataPoints(globals.camData);
      var dataPoints := FillDataPoints(globals.camData);
      var clusteredData := RegroupRows(dataPoints, labels, nodeId);
      globals.camData := clusteredData;
      result := centers;
    }

    /** Serialises the centres and sends them to the switch as one datagram. */
    method SendClusters(centers: Matrix)
      requires centers.Valid()
      modifies this`sentToSwitch
      ensures sentToSwitch == old(sentToSwitch) + [MatrixBytes(centers.cells)]
    {
      var buffer := SerializeMatrix(centers);
      sentToSwitch := sentToSwitch + [buffer];
    }

    /** Contributes this server's buffer, bumps the counter and, when the
        counter after the increment equals `numRsus`, clusters and sends
        the centres. `labels` and `centers` stand for what k-means would
        return; they are used only on the firing call. */
    method StopApplication(labels: seq<int>, centers: Matrix)
      requires globals.Valid()
      requires globals.numStoppedRsus + 1 == numRsus ==>
        ValidLabels(labels, TotalLength(globals.camData + [camData])) && centers.Valid()
      modifies globals, this`sentToSwitch
      ensures globals.Valid()
      ensures globals.numStoppedRsus == old(globals.numStoppedRsus) + 1
      ensures globals.contributed == old(globals.contributed) + [camData]
      ensures globals.numStoppedRsus == numRsus ==>
        && globals.firedAt == old(globals.firedAt) + [numRsus as nat]
        && globals.camData == Regroup(Flatten(old(globals.camData) + [camData]), labels, nodeId)
        && sentToSwitch == old(sentToSwitch) + [MatrixBytes(centers.cells)]
      ensures globals.numStoppedRsus != numRsus ==>
        && globals.firedAt == old(globals.firedAt)
        && globals.camData == old(globals.camData) + [camData]
        && sentToSwitch == old(sentToSwitch)
      // On the first firing the clustered store held every contribution,
      // this server's own included: one batch per server.
      ensures globals.numStoppedRsus == numRsus && old(globals.firedAt) == [] ==>
        old(globals.camData) + [camData] == globals.contributed && |globals.contributed| == numRsus
    {
      UpdateGlobalCamData();
      globals.numStoppedRsus := globals.numStoppedRsus + 1;
      if globals.numStoppedRsus == numRsus {
        globals.firedAt := globals.firedAt + [globals.numStoppedRsus];
        FlattenAppend(old(globals.camData), camData);
        var c := PerformClustering(labels, centers);
        SendClusters(c);
      }
    }
  }

  /** The buffers of a list of servers, in list order. */
  function BatchesOf(servers: seq<CamServer>): (r: seq<seq<CamData>>)
    reads servers
    ensures |r| == |servers|
    ensures forall k :: 0 <= k < |servers| ==> r[k] == servers[k].camData
  {
    seq(|servers|, k requires 0 <= k < |servers| reads servers => servers[k].camData)
  }

  /** The end of an epoch: the stop events of all N servers run one after
      the other, in any order. Clustering runs exactly once, on the last
      stop, over one batch per server in stop order. */
  method StopAllRsus(servers: seq<CamServer>, globals: Globals, labels: seq<int>, centers: Matrix)
    requires 0 < |servers| < 0x1_0000_0000
    requires forall k, l :: 0 <= k < l < |servers| ==> servers[k] != servers[l]
    requires forall k :: 0 <= k < |servers| ==> servers[k].globals == globals && servers[k].numRsus == |servers|
    requires globals.Valid() && globals.numStoppedRsus == 0 && globals.firedAt == []
    requires ValidLabels(labels, TotalLength(BatchesOf(servers))) && centers.Valid()
    modifies globals, servers
    ensures globals.Valid()
    ensures globals.numStoppedRsus == |servers|
    ensures globals.firedAt == [|servers|]
    ensures globals.contributed == old(BatchesOf(servers))
    ensures globals.camData == Regroup(Flatten(old(BatchesOf(servers))), labels, servers[|servers| - 1].nodeId)
    // The servers' buffers are left as they were; only the last server to
    // stop sends, and it sends the centres once.
    ensures forall j :: 0 <= j < |servers| ==> servers[j].camData == old(servers[j].camData)
    ensures forall j :: 0 <= j < |servers| - 1 ==> servers[j].sentToSwitch == old(servers[j].sentToSwitch)
    ensures servers[|servers| - 1].sentToSwitch
      == old(servers[|servers| - 1].sentToSwitch) + [MatrixBytes(centers.cells)]
  {
    ghost var batches := BatchesOf(servers);
    var n := |servers|;
    var k := 0;
    while k < n
      invariant 0 <= k <= n
      invariant globals.Valid()
      invariant forall j :: 0 <= j < n ==> servers[j].camData == batches[j]
      invariant forall j :: 0 <= j < n - 1 ==> servers[j].sentToSwitch == old(servers[j].sentToSwitch)
      invariant k < n ==> servers[n - 1].sentToSwitch == old(servers[n - 1].sentToSwitch)
      invariant k == n ==>
        servers[n - 1].sentToSwitch == old(servers[n - 1].sentToSwitch) + [MatrixBytes(centers.cells)]
      invariant globals.numStoppedRsus == k
      invariant globals.contributed == batches[..k]
      invariant k < n ==> globals.firedAt == [] && globals.camData == batches[..k]
      invariant k == n ==>
        && globals.firedAt == [n]
        && globals.camData == Regroup(Flatten(batches), labels, servers[n - 1].nodeId)
    {
      var server := servers[k];
      assert server.globals == globals && server.numRsus as int == n;
      assert server.camData == batches[k];
      assert batches[..k] + [batches[k]] == batches[..k + 1];
      if k == n - 1 {
        assert batches[..k + 1] == batches;
      }
      server.StopApplication(labels, centers);
      k := k + 1;
    }
  }
}
