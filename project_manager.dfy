/**
 * The multi-layer project manager: one active project whose layers
 * `layer_0 .. layer_{n-1}` are uploaded one file each, whole or in chunks.
 *
 * The project directory is two maps: `files` for the reassembled layer
 * files under `layers/` and `temp` for the chunk scratch area. Hashing,
 * `time.time()` and the project-state file are not modelled: the project id
 * and the current time are parameters.
 */
module Projects {
  import opened Wrappers
  import opened Strings
  import opened Ints
  import opened Json
  import opened ChunkStore

  datatype LayerStatus = NotStarted | LayerUploading | LayerComplete | LayerError

  datatype ProjectStatus = Created | Uploading | Ready | Plotting | Complete | ProjectError

  /** A point in time, standing for the ISO timestamps the manager writes. */
  type Stamp = nat

  /**
   * A layer record. `originalFilename` and `uploadedAt` are `None` until
   * the first successful upload adds those keys.
   */
  datatype Layer = Layer(
    id: string,
    index: nat,
    name: Json,
    status: LayerStatus,
    filePath: Option<string>,
    fileSize: nat,
    progress: int,
    errorMessage: Option<string>,
    originalFilename: Option<string>,
    uploadedAt: Option<Stamp>)

  datatype Project = Project(
    id: string,
    name: Json,
    description: Json,
    createdAt: Stamp,
    updatedAt: Stamp,
    status: ProjectStatus,
    config: Json,
    layers: map<string, Layer>,
    totalLayers: int,
    uploadedLayers: nat,
    metadata: Json,
    files: Dir,
    temp: Dir)

  /** The `project_data` dictionary of `create_project`; `None` is an absent key. */
  datatype ProjectData = ProjectData(
    name: Option<Json>,
    description: Option<Json>,
    config: Option<Json>,
    totalLayers: Option<int>,
    layerNames: map<string, Json>,
    metadata: Option<Json>)

  /** What `_get_layer_info` reports: the layer record without its file path. */
  datatype LayerInfo = LayerInfo(
    id: string,
    index: nat,
    name: Json,
    status: LayerStatus,
    fileSize: nat,
    progress: int,
    uploadedAt: Option<Stamp>,
    errorMessage: Option<string>,
    originalFilename: Option<string>)

  /** The dictionary `upload_layer_chunked` returns. */
  datatype ChunkReply = ChunkReply(layerId: string, status: LayerStatus, progress: int, chunksReceived: nat, totalChunks: int)

  const NoProjectMessage := "No active project"

  function InvalidLayerMessage(layerId: string): string {
    "Invalid layer ID: " + layerId
  }

  /** `f"layer_{i}"` */
  function LayerId(i: int): string {
    Numbered("layer_", i)
  }

  /** The ids of a project declared with `total` layers (`range` of a negative count is empty). */
  function LayerIds(total: int): set<string> {
    NamesOf("layer_", Below(Steps(total)))
  }

  /** Stands for `f"{layer_id}_{md5(filename)[:8]}.svg"` under `layers/`. */
  function LayerFile(layerId: string, filename: string): string {
    "layers/" + layerId + "_" + filename + ".svg"
  }

  function InitialLayer(data: ProjectData, i: nat): Layer {
    var id := LayerId(i);
    var name := if id in data.layerNames then data.layerNames[id] else JStr("Layer " + NatToString(i));
    Layer(id, i, name, NotStarted, None, 0, 0, None, None, None)
  }

  function InfoOf(l: Layer): LayerInfo {
    LayerInfo(l.id, l.index, l.name, l.status, l.fileSize, l.progress, l.uploadedAt, l.errorMessage, l.originalFilename)
  }

  function CompleteIds(layers: map<string, Layer>): set<string> {
    set k | k in layers && layers[k].status == LayerComplete
  }

  /** The recount `sum(1 for l in layers.values() if l['status'] == 'complete')`. */
  function CompleteCount(layers: map<string, Layer>): nat {
    |CompleteIds(layers)|
  }

  /**
   * What stays true of a project between calls: its layer ids are the
   * declared ones, each record carries its own id, and the stored count
   * of uploaded layers never exceeds the number of layers. The count is
   * only recomputed after a successful upload, so it may lag behind a
   * layer that later failed or restarted.
   */
  predicate WellFormed(p: Project) {
    && p.layers.Keys == LayerIds(p.totalLayers)
    && (forall k | k in p.layers :: p.layers[k].id == k)
    && p.uploadedLayers <= |p.layers|
  }

  lemma SubsetCard<T>(a: set<T>, b: set<T>)
    requires a <= b
    ensures |a| <= |b|
  {
    assert |b| == |a| + |b - a| by {
      assert b == a + (b - a);
    }
  }

  lemma CompleteCountBound(layers: map<string, Layer>)
    ensures CompleteCount(layers) <= |layers|
  {
    SubsetCard(CompleteIds(layers), layers.Keys);
  }

  /** Every layer counts as uploaded exactly when every layer is complete. */
  lemma AllComplete(layers: map<string, Layer>)
    ensures CompleteCount(layers) == |layers| <==> forall k | k in layers :: layers[k].status == LayerComplete
  {
    var c := CompleteIds(layers);
    if CompleteCount(layers) == |layers| {
      forall k | k in layers ensures layers[k].status == LayerComplete {
        if k !in c {
          SubsetCard(c, layers.Keys - {k});
        }
      }
    } else {
      assert c != layers.Keys;
    }
  }

  /** Marking one layer complete adds one to the count, or nothing when it already was. */
  lemma CompleteCountUpdate(layers: map<string, Layer>, k: string, l: Layer)
    requires k in layers && l.status == LayerComplete
    ensures CompleteCount(layers[k := l]) ==
              CompleteCount(layers) + (if layers[k].status == LayerComplete then 0 else 1)
  {
    var before := CompleteIds(layers);
    var after := CompleteIds(layers[k := l]);
    if layers[k].status == LayerComplete {
      assert after == before;
    } else {
      assert after == before + {k};
    }
  }

  /** `WellFormed` carries over to a project with the same ids, records that keep their ids, and a count in range. */
  lemma Reshaped(p: Project, q: Project)
    requires q.layers.Keys == p.layers.Keys && q.totalLayers == p.totalLayers
    requires forall k | k in q.layers :: q.layers[k].id == p.layers[k].id
    requires q.uploadedLayers <= |q.layers| || q.uploadedLayers == p.uploadedLayers
    ensures WellFormed(p) ==> WellFormed(q)
  {
    assert |q.layers| == |q.layers.Keys| == |p.layers.Keys| == |p.layers|;
  }

  /** With well-formed ids the project has `total_layers` layers, and at least one once any exists. */
  lemma LayerCount(p: Project)
    requires WellFormed(p)
    ensures |p.layers| == Steps(p.totalLayers)
    ensures p.layers != map[] ==> |p.layers| == p.totalLayers
  {
    ImageSize("layer_", Below(Steps(p.totalLayers)));
    BelowSize(Steps(p.totalLayers));
  }

  /**
   * The bookkeeping after a layer file has been written, shared by both
   * upload paths: the layer is complete with progress 100 and the file's
   * size, the count is recomputed, and the project becomes ready exactly
   * when every layer is complete.
   */
  function CompleteLayer(p: Project, layerId: string, path: string, data: Bytes, filename: string, now: Stamp): (q: Project)
    requires layerId in p.layers
    ensures WellFormed(p) ==> WellFormed(q)
    ensures q.layers.Keys == p.layers.Keys
    ensures forall k | k in p.layers && k != layerId :: q.layers[k] == p.layers[k]
    ensures var l := q.layers[layerId];
            l.status == LayerComplete && l.progress == 100 && l.fileSize == |data|
            && l.filePath == Some(path) && l.originalFilename == Some(filename) && l.uploadedAt == Some(now)
    ensures q.files == p.files[path := data] && q.temp == p.temp
    ensures q.uploadedLayers == CompleteCount(q.layers)
    ensures q.uploadedLayers == p.totalLayers ==> q.status == Ready
    ensures q.uploadedLayers != p.totalLayers ==> q.status == p.status
  {
    var l := p.layers[layerId].(filePath := Some(path), fileSize := |data|, originalFilename := Some(filename),
                                uploadedAt := Some(now), status := LayerComplete, progress := 100);
    var layers := p.layers[layerId := l];
    var count := CompleteCount(layers);
    CompleteCountBound(layers);
    assert |layers| == |p.layers| by {
      assert layers.Keys == p.layers.Keys;
    }
    var q := p.(layers := layers, uploadedLayers := count, files := p.files[path := data]);
    var q' := if count == p.totalLayers then q.(status := Ready) else q;
    Reshaped(p, q');
    q'
  }

  /**
   * A project whose layers are all complete after an upload is ready.
   * The converse needs the project not to have been ready already: the
   * status is only ever raised to `ready`, never lowered, by a recount.
   */
  lemma CompleteLayerReady(p: Project, layerId: string, path: string, data: Bytes, filename: string, now: Stamp)
    requires WellFormed(p) && layerId in p.layers
    ensures var q := CompleteLayer(p, layerId, path, data, filename, now);
            (forall k | k in q.layers :: q.layers[k].status == LayerComplete) ==> q.status == Ready
    ensures var q := CompleteLayer(p, layerId, path, data, filename, now);
            p.status != Ready ==>
              (q.status == Ready <==> forall k | k in q.layers :: q.layers[k].status == LayerComplete)
  {
    var q := CompleteLayer(p, layerId, path, data, filename, now);
    AllComplete(q.layers);
    LayerCount(p);
    assert |q.layers| == |q.layers.Keys| == |p.layers.Keys| == |p.layers|;
  }

  /** The `except` branch of both uploads: the layer is marked `error` with the message; nothing is recounted. */
  function MarkError(p: Project, layerId: string, message: string): (q: Project)
    requires layerId in p.layers
    ensures WellFormed(p) ==> WellFormed(q)
    ensures q.layers.Keys == p.layers.Keys
    ensures forall k | k in p.layers && k != layerId :: q.layers[k] == p.layers[k]
    ensures q.layers[layerId] == p.layers[layerId].(status := LayerError, errorMessage := Some(message))
    ensures q.(layers := p.layers) == p
  {
    p.(layers := p.layers[layerId := p.layers[layerId].(status := LayerError, errorMessage := Some(message))])
  }

  /** A project together with what the call returned or raised. */
  datatype Step<+T> = Step(project: Project, reply: Result<T, string>)

  /**
   * `upload_layer` for an existing layer: the layer and the project are
   * marked uploading; a failed write then marks the layer `error`, and a
   * successful one completes it.
   */
  function WholeUpload(p: Project, layerId: string, fileData: Bytes, filename: string, writeError: Option<string>, now: Stamp)
    : (s: Step<LayerInfo>)
    requires layerId in p.layers
    ensures WellFormed(p) ==> WellFormed(s.project)
    ensures s.project.layers.Keys == p.layers.Keys
    ensures forall k | k in p.layers && k != layerId :: s.project.layers[k] == p.layers[k]
    ensures s.project.updatedAt == now
    ensures writeError.Some? ==>
              s.reply == Err(writeError.value)
              && s.project.layers[layerId].status == LayerError
              && s.project.layers[layerId].errorMessage == writeError
              && s.project.status == Uploading && s.project.uploadedLayers == p.uploadedLayers
    ensures writeError.None? ==>
              var l := s.project.layers[layerId];
              s.reply == Ok(InfoOf(l))
              && l.status == LayerComplete && l.progress == 100 && l.fileSize == |fileData|
              && s.project.files == p.files[LayerFile(layerId, filename) := fileData]
              && s.project.uploadedLayers == CompleteCount(s.project.layers)
              && (s.project.status == Ready <==> s.project.uploadedLayers == p.totalLayers)
              && (s.project.status == Ready || s.project.status == Uploading)
  {
    var started := p.(status := Uploading, updatedAt := now);
    Reshaped(p, started);
    if writeError.Some? then
      Step(MarkError(started, layerId, writeError.value), Err(writeError.value))
    else
      var q := CompleteLayer(started, layerId, LayerFile(layerId, filename), fileData, filename, now);
      Step(q, Ok(InfoOf(q.layers[layerId])))
  }

  /**
   * The state right after the chunk is written: chunk 0 marks the layer
   * and the project uploading, and the chunk is in the scratch area.
   */
  function ChunkStarted(p: Project, layerId: string, chunkData: Bytes, info: ChunkInfo): (q: Project)
    requires layerId in p.layers
    ensures WellFormed(p) ==> WellFormed(q)
    ensures q.layers.Keys == p.layers.Keys
    ensures forall k | k in p.layers && k != layerId :: q.layers[k] == p.layers[k]
    ensures q.temp == StoreChunk(p.temp, ChunkPrefix(layerId, info), info.chunkNumber, chunkData)
    ensures info.chunkNumber == 0 ==> q.status == Uploading && q.layers[layerId].status == LayerUploading
    ensures info.chunkNumber != 0 ==> q.status == p.status && q.layers == p.layers
    ensures q.files == p.files && q.uploadedLayers == p.uploadedLayers
  {
    var p' := if info.chunkNumber == 0
              then p.(layers := p.layers[layerId := p.layers[layerId].(status := LayerUploading)], status := Uploading)
              else p;
    Reshaped(p, p');
    var q := p'.(temp := StoreChunk(p.temp, ChunkPrefix(layerId, info), info.chunkNumber, chunkData));
    Reshaped(p', q);
    q
  }

  /** `f"{file_id}_chunk_"`, where `file_id` defaults to the layer id. */
  function ChunkPrefix(layerId: string, info: ChunkInfo): string {
    OrElse(info.fileId, layerId) + "_chunk_"
  }

  /** The layer's progress set to `int((n+1)/total*100)`. */
  function Progressed(p: Project, layerId: string, info: ChunkInfo): (q: Project)
    requires layerId in p.layers && info.totalChunks != 0
    ensures WellFormed(p) ==> WellFormed(q)
    ensures q.layers.Keys == p.layers.Keys
    ensures forall k | k in p.layers && k != layerId :: q.layers[k] == p.layers[k]
    ensures q.layers[layerId] == p.layers[layerId].(progress := Percent(info.chunkNumber, info.totalChunks))
    ensures q.(layers := p.layers) == p
  {
    var q := p.(layers := p.layers[layerId := p.layers[layerId].(progress := Percent(info.chunkNumber, info.totalChunks))]);
    Reshaped(p, q);
    q
  }

  /**
   * `upload_layer_chunked` for an existing layer, once the chunk is stored.
   * A zero total raises (division by zero) and marks the layer `error`.
   * Otherwise the layer's progress becomes `int((n+1)/total*100)`. When the
   * number of stored chunks with this prefix reaches the total, chunks
   * `0 .. total-1` are joined and removed: a missing index raises after
   * the chunks before it were written out and removed, marking the layer
   * `error`; otherwise the joined bytes become the layer's file.
   */
  function ChunkUpload(p: Project, layerId: string, chunkData: Bytes, info: ChunkInfo, now: Stamp): (s: Step<ChunkReply>)
    requires layerId in p.layers
    ensures WellFormed(p) ==> WellFormed(s.project)
    ensures s.project.layers.Keys == p.layers.Keys
    ensures forall k | k in p.layers && k != layerId :: s.project.layers[k] == p.layers[k]
    ensures s.reply.Ok? ==> s.reply.value.layerId == layerId && s.reply.value.totalChunks == info.totalChunks
                            && s.reply.value.status == s.project.layers[layerId].status
                            && s.reply.value.progress == s.project.layers[layerId].progress
    ensures s.reply.Err? ==> s.project.layers[layerId].status == LayerError
                             && s.project.layers[layerId].errorMessage == Some(s.reply.error)
                             && s.project.uploadedLayers == p.uploadedLayers
  {
    var started := ChunkStarted(p, layerId, chunkData, info);
    var prefix := ChunkPrefix(layerId, info);
    var total := info.totalChunks;
    if total == 0 then
      Step(MarkError(started, layerId, DivisionMessage), Err(DivisionMessage))
    else
      var progressed := Progressed(started, layerId, info);
      var count := ReceivedCount(started.temp, prefix);
      var path := LayerFile(layerId, info.filename);
      if count != total then
        var l := progressed.layers[layerId];
        Step(progressed, Ok(ChunkReply(layerId, l.status, l.progress, count, total)))
      else if HasChunks(started.temp, prefix, total) then
        Step(Reassembled(progressed, layerId, prefix, total, info.filename, now),
             Ok(ChunkReply(layerId, LayerComplete, 100, count, total)))
      else
        Step(Interrupted(progressed, layerId, prefix, total, info.filename), Err(MissingChunkMessage))
  }

  /** All chunks present: they are joined into the layer's file and removed, and the layer is complete. */
  function Reassembled(p: Project, layerId: string, prefix: string, total: nat, filename: string, now: Stamp): (q: Project)
    requires layerId in p.layers && HasChunks(p.temp, prefix, total)
    ensures WellFormed(p) ==> WellFormed(q)
    ensures q.layers.Keys == p.layers.Keys
    ensures forall k | k in p.layers && k != layerId :: q.layers[k] == p.layers[k]
    ensures q == CompleteLayer(p.(temp := p.temp - NamesBelow(prefix, total)), layerId, LayerFile(layerId, filename),
                               Joined(p.temp, prefix, total), filename, now)
  {
    var cleared := p.(temp := p.temp - NamesBelow(prefix, total));
    Reshaped(p, cleared);
    CompleteLayer(cleared, layerId, LayerFile(layerId, filename), Joined(p.temp, prefix, total), filename, now)
  }

  /** A chunk below the total is missing: what was read is written out, those chunks removed, the layer marked `error`. */
  function Interrupted(p: Project, layerId: string, prefix: string, total: nat, filename: string): (q: Project)
    requires layerId in p.layers
    ensures WellFormed(p) ==> WellFormed(q)
    ensures q.layers.Keys == p.layers.Keys
    ensures forall k | k in p.layers && k != layerId :: q.layers[k] == p.layers[k]
    ensures var k := FirstMissing(p.temp, prefix, total);
            q == MarkError(p.(files := p.files[LayerFile(layerId, filename) := Joined(p.temp, prefix, k)],
                              temp := p.temp - NamesBelow(prefix, k)), layerId, MissingChunkMessage)
  {
    var k := FirstMissing(p.temp, prefix, total);
    var written := p.(files := p.files[LayerFile(layerId, filename) := Joined(p.temp, prefix, k)],
                      temp := p.temp - NamesBelow(prefix, k));
    Reshaped(p, written);
    MarkError(written, layerId, MissingChunkMessage)
  }

  /** `chunk_info['total_chunks'] == 0`: the progress division raises and the layer is marked `error`. */
  lemma ChunkUploadZeroTotal(p: Project, layerId: string, chunkData: Bytes, info: ChunkInfo, now: Stamp)
    requires layerId in p.layers && info.totalChunks == 0
    ensures var s := ChunkUpload(p, layerId, chunkData, info, now);
            s.reply == Err(DivisionMessage) && s.project.layers[layerId].status == LayerError
            && s.project.temp == StoreChunk(p.temp, ChunkPrefix(layerId, info), info.chunkNumber, chunkData)
  {
  }

  /**
   * While fewer chunks than announced are stored, a chunk only lands in
   * the scratch area and moves the progress; files and the count stay.
   */
  lemma ChunkUploadPartial(p: Project, layerId: string, chunkData: Bytes, info: ChunkInfo, now: Stamp)
    requires layerId in p.layers && info.totalChunks != 0
    requires var stored := StoreChunk(p.temp, ChunkPrefix(layerId, info), info.chunkNumber, chunkData);
             ReceivedCount(stored, ChunkPrefix(layerId, info)) != info.totalChunks
    ensures var s := ChunkUpload(p, layerId, chunkData, info, now);
            var stored := StoreChunk(p.temp, ChunkPrefix(layerId, info), info.chunkNumber, chunkData);
            s.reply.Ok? && s.reply.value.progress == Percent(info.chunkNumber, info.totalChunks)
            && s.reply.value.chunksReceived == ReceivedCount(stored, ChunkPrefix(layerId, info))
            && s.project.temp == stored && s.project.files == p.files
            && s.project.uploadedLayers == p.uploadedLayers
  {
  }

  /**
   * The chunk that brings the count to the total, with chunks
   * `0 .. total-1` all present: their concatenation in index order is the
   * layer's file, they are removed, and the layer is complete.
   */
  lemma ChunkUploadJoined(p: Project, layerId: string, chunkData: Bytes, info: ChunkInfo, now: Stamp)
    requires layerId in p.layers && info.totalChunks != 0
    requires var prefix := ChunkPrefix(layerId, info);
             var stored := StoreChunk(p.temp, prefix, info.chunkNumber, chunkData);
             ReceivedCount(stored, prefix) == info.totalChunks && HasChunks(stored, prefix, info.totalChunks)
    ensures var prefix := ChunkPrefix(layerId, info);
            var stored := StoreChunk(p.temp, prefix, info.chunkNumber, chunkData);
            var total := info.totalChunks;
            var s := ChunkUpload(p, layerId, chunkData, info, now);
            var l := s.project.layers[layerId];
            s.reply == Ok(ChunkReply(layerId, LayerComplete, 100, total, total))
            && l.status == LayerComplete && l.fileSize == |Joined(stored, prefix, total)|
            && s.project.files == p.files[LayerFile(layerId, info.filename) := Joined(stored, prefix, total)]
            && s.project.temp == stored - NamesBelow(prefix, total)
            && s.project.uploadedLayers == CompleteCount(s.project.layers)
  {
  }

  /**
   * The count reaches the total but some index below it is missing (the
   * prefix also matches another upload's chunks, or an index was out of
   * range): the chunks before the first missing one are written out and
   * removed, and the layer is marked `error`.
   */
  lemma ChunkUploadMissing(p: Project, layerId: string, chunkData: Bytes, info: ChunkInfo, now: Stamp)
    requires layerId in p.layers && info.totalChunks != 0
    requires var prefix := ChunkPrefix(layerId, info);
             var stored := StoreChunk(p.temp, prefix, info.chunkNumber, chunkData);
             ReceivedCount(stored, prefix) == info.totalChunks && !HasChunks(stored, prefix, info.totalChunks)
    ensures var prefix := ChunkPrefix(layerId, info);
            var stored := StoreChunk(p.temp, prefix, info.chunkNumber, chunkData);
            var k := FirstMissing(stored, prefix, info.totalChunks);
            var s := ChunkUpload(p, layerId, chunkData, info, now);
            s.reply == Err(MissingChunkMessage) && s.project.layers[layerId].status == LayerError
            && s.project.files == p.files[LayerFile(layerId, info.filename) := Joined(stored, prefix, k)]
            && s.project.temp == stored - NamesBelow(prefix, k)
  {
  }

  /** `range(total_layers)` turned into the layer map of a new project. */
  method InitialLayers(data: ProjectData, n: nat) returns (layers: map<string, Layer>)
    ensures layers.Keys == NamesOf("layer_", Below(n))
    ensures forall k | k in layers :: layers[k].id == k
    ensures forall j | 0 <= j < n :: LayerId(j) in layers && layers[LayerId(j)] == InitialLayer(data, j)
  {
    layers := map[];
    var i := 0;
    while i < n
      invariant 0 <= i <= n
      invariant layers.Keys == NamesOf("layer_", Below(i))
      invariant forall k | k in layers :: layers[k].id == k
      invariant forall j | 0 <= j < i :: LayerId(j) in layers && layers[LayerId(j)] == InitialLayer(data, j)
    {
      AddInitialLayer(data, layers, i);
      layers := layers[LayerId(i) := InitialLayer(data, i)];
      i := i + 1;
    }
  }

  /** One step of the loop in `_create_project_structure`: layer `i` joins the first `i`. */
  lemma AddInitialLayer(data: ProjectData, layers: map<string, Layer>, i: nat)
    requires layers.Keys == NamesOf("layer_", Below(i))
    requires forall k | k in layers :: layers[k].id == k
    requires forall j | 0 <= j < i :: LayerId(j) in layers && layers[LayerId(j)] == InitialLayer(data, j)
    ensures var next := layers[LayerId(i) := InitialLayer(data, i)];
            && next.Keys == NamesOf("layer_", Below(i + 1))
            && (forall k | k in next :: next[k].id == k)
            && forall j | 0 <= j < i + 1 :: LayerId(j) in next && next[LayerId(j)] == InitialLayer(data, j)
  {
    NextLayerIds(layers.Keys, i);
    forall j | 0 <= j < i ensures LayerId(j) != LayerId(i) {
      NumberedInjective("layer_", j, i);
    }
  }

  lemma NextLayerIds(keys: set<string>, i: nat)
    requires keys == NamesOf("layer_", Below(i))
    ensures keys + {LayerId(i)} == NamesOf("layer_", Below(i + 1))
  {
    NamesOfAdd("layer_", Below(i), i);
    assert Below(i + 1) == Below(i) + {i};
  }

  /** The project `create_project` builds. */
  function NewProject(data: ProjectData, id: string, now: Stamp, layers: map<string, Layer>): Project {
    Project(id, OrElse(data.name, JStr("Project_" + NatToString(now))),
            OrElse(data.description, JStr("")), now, now, Created,
            OrElse(data.config, JObj(map[])), layers, OrElse(data.totalLayers, 1), 0,
            OrElse(data.metadata, JObj(map[])), map[], map[])
  }

  /** The body of `upload_layer_chunked` once the layer is known to exist. */
  method ChunkStep(p: Project, layerId: string, chunkData: Bytes, info: ChunkInfo, now: Stamp)
    returns (s: Step<ChunkReply>)
    requires layerId in p.layers
    ensures s == ChunkUpload(p, layerId, chunkData, info, now)
  {
    var started := ChunkStarted(p, layerId, chunkData, info);
    var prefix := ChunkPrefix(layerId, info);
    var total := info.totalChunks;
    if total == 0 {
      return Step(MarkError(started, layerId, DivisionMessage), Err(DivisionMessage));
    }
    var progressed := Progressed(started, layerId, info);
    var count := ReceivedCount(progressed.temp, prefix);
    if count != total {
      var l := progressed.layers[layerId];
      return Step(progressed, Ok(ChunkReply(layerId, l.status, l.progress, count, total)));
    }
    var q := Reassemble(progressed, layerId, prefix, total, info.filename, now);
    s := Step(q, if q.layers[layerId].status == LayerError then Err(MissingChunkMessage)
                 else Ok(ChunkReply(layerId, LayerComplete, 100, count, total)));
  }

  /** The read-and-remove loop over `range(total_chunks)` and the bookkeeping after it. */
  method Reassemble(p: Project, layerId: string, prefix: string, total: nat, filename: string, now: Stamp)
    returns (q: Project)
    requires layerId in p.layers
    ensures HasChunks(p.temp, prefix, total) ==>
              q == Reassembled(p, layerId, prefix, total, filename, now) && q.layers[layerId].status == LayerComplete
    ensures !HasChunks(p.temp, prefix, total) ==>
              q == Interrupted(p, layerId, prefix, total, filename) && q.layers[layerId].status == LayerError
  {
    var out, missing, rest := ReadAndRemoveChunks(p.temp, prefix, total);
    var path := LayerFile(layerId, filename);
    if missing.Some? {
      q := MarkError(p.(files := p.files[path := out], temp := rest), layerId, MissingChunkMessage);
    } else {
      q := CompleteLayer(p.(temp := rest), layerId, path, out, filename, now);
    }
  }

  class ProjectManager {
    var current: Option<Project>

    predicate Valid()
      reads this
    {
      current.Some? ==> WellFormed(current.value)
    }

    constructor()
      ensures current == None && Valid()
    {
      current := None;
    }

    /**
     * `create_project`: the previous project is discarded and a fresh one
     * created, with `total_layers` (default 1) layers `layer_0 ..` that
     * have not started, each named from `layer_names` or `Layer {i}`.
     */
    method CreateProject(data: ProjectData, id: string, now: Stamp) returns (project: Project)
      modifies this
      ensures current == Some(project) && Valid()
      ensures project.id == id && project.status == Created && project.uploadedLayers == 0
      ensures project.totalLayers == OrElse(data.totalLayers, 1)
      ensures project.layers.Keys == LayerIds(project.totalLayers)
      ensures forall i | 0 <= i < project.totalLayers :: LayerId(i) in project.layers
                && project.layers[LayerId(i)] == InitialLayer(data, i)
      ensures project == NewProject(data, id, now, project.layers)
    {
      current := None;
      var layers := InitialLayers(data, Steps(OrElse(data.totalLayers, 1)));
      project := NewProject(data, id, now, layers);
      current := Some(project);
    }

    /**
     * `upload_layer`. `writeError` is the message of the exception writing
     * the file raised, if it did.
     */
    method UploadLayer(layerId: string, fileData: Bytes, filename: string, writeError: Option<string>, now: Stamp)
      returns (r: Result<LayerInfo, string>)
      requires Valid()
      modifies this
      ensures Valid()
      ensures old(current).None? ==> r == Err(NoProjectMessage) && current == None
      ensures old(current).Some? && layerId !in old(current).value.layers ==>
                r == Err(InvalidLayerMessage(layerId)) && current == old(current)
      ensures old(current).Some? && layerId in old(current).value.layers ==>
                var s := WholeUpload(old(current).value, layerId, fileData, filename, writeError, now);
                current == Some(s.project) && r == s.reply
    {
      if current.None? {
        return Err(NoProjectMessage);
      }
      var p := current.value;
      if layerId !in p.layers {
        return Err(InvalidLayerMessage(layerId));
      }
      p := p.(status := Uploading, updatedAt := now);
      if writeError.Some? {
        current := Some(MarkError(p, layerId, writeError.value));
        return Err(writeError.value);
      }
      p := CompleteLayer(p, layerId, LayerFile(layerId, filename), fileData, filename, now);
      current := Some(p);
      r := Ok(InfoOf(p.layers[layerId]));
    }

    /**
     * `upload_layer_chunked`; the reassembly is the read-and-remove loop
     * over `range(total_chunks)`.
     */
    method UploadLayerChunked(layerId: string, chunkData: Bytes, info: ChunkInfo, now: Stamp)
      returns (r: Result<ChunkReply, string>)
      requires Valid()
      modifies this
      ensures Valid()
      ensures old(current).None? ==> r == Err(NoProjectMessage) && current == None
      ensures old(current).Some? && layerId !in old(current).value.layers ==>
                r == Err(InvalidLayerMessage(layerId)) && current == old(current)
      ensures old(current).Some? && layerId in old(current).value.layers ==>
                var s := ChunkUpload(old(current).value, layerId, chunkData, info, now);
                current == Some(s.project) && r == s.reply
    {
      if current.None? {
        return Err(NoProjectMessage);
      }
      var p := current.value;
      if layerId !in p.layers {
        return Err(InvalidLayerMessage(layerId));
      }
      var s := ChunkStep(p, layerId, chunkData, info, now);
      current := Some(s.project);
      r := s.reply;
    }

    /** `get_layer_info`: nothing without a project or for an unknown id. */
    function GetLayerInfo(layerId: string): (r: Option<LayerInfo>)
      reads this
      ensures r.Some? <==> current.Some? && layerId in current.value.layers
      ensures Valid() && r.Some? ==> r.value.id == layerId
    {
      if current.None? || layerId !in current.value.layers then None
      else Some(InfoOf(current.value.layers[layerId]))
    }

    function IsProjectReady(): (r: bool)
      reads this
      ensures r <==> current.Some? && current.value.status == Ready
    {
      current.Some? && current.value.status == Ready
    }

    /** `clear_project`: true when there was a project; none is left. */
    method ClearProject() returns (existed: bool)
      modifies this
      ensures existed == old(current).Some? && current == None && Valid()
    {
      existed := current.Some?;
      current := None;
    }
  }

  /**
   * The last missing layer completing makes the project ready: when every
   * other layer is complete before the upload, the project is ready after it.
   */
  lemma LastLayerMakesReady(p: Project, layerId: string, fileData: Bytes, filename: string, now: Stamp)
    requires WellFormed(p) && layerId in p.layers
    requires forall k | k in p.layers && k != layerId :: p.layers[k].status == LayerComplete
    ensures WholeUpload(p, layerId, fileData, filename, None, now).project.status == Ready
  {
    var q := WholeUpload(p, layerId, fileData, filename, None, now).project;
    WholeUploadReady(p, layerId, fileData, filename, now);
    forall k | k in q.layers ensures q.layers[k].status == LayerComplete {
      if k != layerId {
        assert q.layers[k] == p.layers[k];
      }
    }
  }

  /** A whole-file upload leaves the project ready exactly when every layer is then complete. */
  lemma WholeUploadReady(p: Project, layerId: string, fileData: Bytes, filename: string, now: Stamp)
    requires WellFormed(p) && layerId in p.layers
    ensures var q := WholeUpload(p, layerId, fileData, filename, None, now).project;
            q.status == Ready <==> forall k | k in q.layers :: q.layers[k].status == LayerComplete
  {
    var started := p.(status := Uploading, updatedAt := now);
    Reshaped(p, started);
    CompleteLayerReady(started, layerId, LayerFile(layerId, filename), fileData, filename, now);
  }
}
