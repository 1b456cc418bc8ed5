/**
 * The single-SVG project manager: one active project holding one drawing
 * whose layers are read from the file once it is uploaded, whole or in
 * chunks.
 *
 * The project directory is two maps: `files` for the drawing and `temp`
 * for the chunk scratch area. The parse of the written drawing is a
 * parameter (`parsed`), as are the project id and the current time.
 */
module ProjectsOld {
  import opened Wrappers
  import opened Ints
  import opened Json
  import opened Strings
  import opened ChunkStore
  import opened SvgLayers

  /** This file's own `ProjectStatus` enumeration. */
  datatype ProjectStatus = Created | Uploading | Ready | Plotting | Complete | ProjectError

  type Stamp = nat

  /**
   * The project record. `originalFilename`, `uploadedAt` and
   * `errorMessage` are `None` until an upload adds those keys.
   */
  datatype Project = Project(
    id: string,
    name: Json,
    description: Json,
    createdAt: Stamp,
    updatedAt: Stamp,
    status: ProjectStatus,
    config: Json,
    svgFile: Option<string>,
    svgUploaded: bool,
    fileSize: nat,
    availableLayers: seq<Layer>,
    metadata: Json,
    progress: int,
    data: Json,
    originalFilename: Option<string>,
    uploadedAt: Option<Stamp>,
    errorMessage: Option<string>,
    files: Dir,
    temp: Dir)

  /** The `project_data` dictionary of `create_project`; `None` is an absent key. */
  datatype ProjectData = ProjectData(
    name: Option<Json>,
    description: Option<Json>,
    config: Option<Json>,
    metadata: Option<Json>,
    data: Option<Json>)

  /** The dictionary `upload_svg_chunked` returns. */
  datatype ChunkReply = ChunkReply(status: ProjectStatus, progress: int, chunksReceived: nat, totalChunks: int)

  /** A project together with what the call returned or raised. */
  datatype Step<+T> = Step(project: Project, reply: Result<T, string>)

  const NoProjectMessage := "No active project"

  function ChunkPrefix(info: ChunkInfo): string {
    OrElse(info.fileId, DefaultFileId) + "_chunk_"
  }

  /** The project `create_project` builds. */
  function NewProject(data: ProjectData, id: string, now: Stamp): (p: Project)
    ensures p.status == Created && !p.svgUploaded && p.svgFile == None && p.fileSize == 0
    ensures p.availableLayers == [] && p.progress == 0 && p.files == map[] && p.temp == map[]
  {
    Project(id, OrElse(data.name, JStr("Project_" + NatToString(now))), OrElse(data.description, JStr("")),
            now, now, Created, OrElse(data.config, JObj(map[])), None, false, 0, [],
            OrElse(data.metadata, JObj(map[])), 0, OrElse(data.data, JObj(map[])), None, None, None, map[], map[])
  }

  /**
   * What holds of the project between calls: a drawing is recorded
   * exactly when `svg_uploaded` is set, and its layer list is then
   * non-empty; a ready project's drawing is on disk with the recorded size.
   */
  predicate Consistent(p: Project) {
    && (p.svgUploaded <==> p.svgFile.Some?)
    && (p.svgFile.Some? ==> p.availableLayers != [])
    && (p.status == Ready ==> p.svgFile.Some? && p.svgFile.value in p.files
                              && p.fileSize == |p.files[p.svgFile.value]|)
  }

  /** The string-valued keys of the project dictionary, looked up with `.get`. */
  function StringField(p: Project, key: string): Option<string> {
    if key == "id" then Some(p.id)
    else if key == "svg_file" then p.svgFile
    else if key == "original_filename" then p.originalFilename
    else if key == "error_message" then p.errorMessage
    else None
  }

  /**
   * A written drawing recorded in the project: path, size, name, time,
   * progress 100, the layers read from it, and status `ready`.
   */
  function Uploaded(p: Project, path: string, bytes: Bytes, filename: string, parsed: Option<seq<Group>>, now: Stamp)
    : (q: Project)
    ensures Consistent(q) && q.status == Ready && q.svgUploaded && q.progress == 100
    ensures q.svgFile == Some(path) && q.files == p.files[path := bytes] && q.fileSize == |bytes|
    ensures q.originalFilename == Some(filename) && q.availableLayers == ExtractedLayers(parsed)
    ensures q.temp == p.temp
  {
    ExtractedLayersCases(parsed);
    p.(svgFile := Some(path), fileSize := |bytes|, originalFilename := Some(filename), uploadedAt := Some(now),
       svgUploaded := true, progress := 100, files := p.files[path := bytes],
       availableLayers := ExtractedLayers(parsed), status := Ready)
  }

  /** The `except` branch of both uploads: status `error` and the message. */
  function Failed(p: Project, message: string): (q: Project)
    ensures Consistent(p) ==> Consistent(q)
    ensures q.status == ProjectError && q.errorMessage == Some(message)
    ensures q.(status := p.status, errorMessage := p.errorMessage) == p
  {
    p.(status := ProjectError, errorMessage := Some(message))
  }

  /**
   * `upload_svg` with an active project: the status becomes uploading;
   * a failed write then sets `error`, a successful one records the drawing.
   */
  function WholeUpload(p: Project, fileData: Bytes, filename: string, writeError: Option<string>,
                       parsed: Option<seq<Group>>, now: Stamp): (s: Step<Project>)
    ensures Consistent(p) ==> Consistent(s.project)
    ensures s.project.updatedAt == now
    ensures writeError.Some? ==> s.reply == Err(writeError.value) && s.project.status == ProjectError
                                 && s.project.errorMessage == writeError && s.project.files == p.files
    ensures writeError.None? ==>
              s.reply == Ok(s.project) && s.project.status == Ready && s.project.svgUploaded
              && s.project.progress == 100 && s.project.fileSize == |fileData|
              && s.project.files == p.files[DesignFile(filename) := fileData]
              && s.project.availableLayers == ExtractedLayers(parsed)
  {
    var started := p.(status := Uploading, updatedAt := now);
    if writeError.Some? then Step(Failed(started, writeError.value), Err(writeError.value))
    else
      var q := Uploaded(started, DesignFile(filename), fileData, filename, parsed, now);
      Step(q, Ok(q))
  }

  /** The state right after the chunk is written: chunk 0 sets status `uploading`. */
  function ChunkStarted(p: Project, chunkData: Bytes, info: ChunkInfo): (q: Project)
    ensures Consistent(p) ==> Consistent(q)
    ensures q.temp == StoreChunk(p.temp, ChunkPrefix(info), info.chunkNumber, chunkData)
    ensures q.status == (if info.chunkNumber == 0 then Uploading else p.status)
    ensures q.(temp := p.temp, status := p.status) == p
  {
    var p' := if info.chunkNumber == 0 then p.(status := Uploading) else p;
    p'.(temp := StoreChunk(p.temp, ChunkPrefix(info), info.chunkNumber, chunkData))
  }

  /**
   * `upload_svg_chunked` with an active project, once the chunk is stored
   * under `{file_id}_chunk_{n}`. A zero total raises (division by zero).
   * Otherwise the progress becomes `int((n+1)/total*100)`. When as many
   * chunks with the prefix are stored as announced, chunks `0 .. total-1`
   * are joined and removed: a missing one raises after the chunks before
   * it were written out; otherwise the joined bytes are the drawing.
   * Every failure sets status `error` with the message.
   */
  function ChunkUpload(p: Project, chunkData: Bytes, info: ChunkInfo, parsed: Option<seq<Group>>, now: Stamp)
    : (s: Step<ChunkReply>)
    ensures Consistent(p) ==> Consistent(s.project)
    ensures s.reply.Err? ==> s.project.status == ProjectError && s.project.errorMessage == Some(s.reply.error)
    ensures s.reply.Ok? ==> s.reply.value.status == s.project.status && s.reply.value.progress == s.project.progress
                            && s.reply.value.totalChunks == info.totalChunks
    ensures info.totalChunks == 0 ==> s.reply == Err(DivisionMessage)
  {
    var started := ChunkStarted(p, chunkData, info);
    var prefix := ChunkPrefix(info);
    var total := info.totalChunks;
    if total == 0 then Step(Failed(started, DivisionMessage), Err(DivisionMessage))
    else
      var progressed := started.(progress := Percent(info.chunkNumber, total));
      var count := ReceivedCount(progressed.temp, prefix);
      if count != total then
        Step(progressed, Ok(ChunkReply(progressed.status, progressed.progress, count, total)))
      else if HasChunks(progressed.temp, prefix, total) then
        var q := Reassembled(progressed, prefix, total, info.filename, parsed, now);
        Step(q, Ok(ChunkReply(Ready, 100, count, total)))
      else
        Step(Interrupted(progressed, prefix, total, info.filename), Err(MissingChunkMessage))
  }

  function Reassembled(p: Project, prefix: string, total: nat, filename: string, parsed: Option<seq<Group>>, now: Stamp)
    : (q: Project)
    requires HasChunks(p.temp, prefix, total)
    ensures Consistent(q) && q.status == Ready && q.progress == 100
  {
    Uploaded(p.(temp := p.temp - NamesBelow(prefix, total)), DesignFile(filename),
             Joined(p.temp, prefix, total), filename, parsed, now)
  }

  /**
   * A missing chunk part-way through: the chunks before the first missing
   * one are in the drawing's file and gone from the scratch area, and the
   * project is marked `error`; nothing else changes.
   */
  function Interrupted(p: Project, prefix: string, total: nat, filename: string): (q: Project)
    ensures Consistent(p) && p.status != Ready ==> Consistent(q)
    ensures q.status == ProjectError && q.errorMessage == Some(MissingChunkMessage)
    ensures var k := FirstMissing(p.temp, prefix, total);
            && q.files == p.files[DesignFile(filename) := Joined(p.temp, prefix, k)]
            && q.temp == p.temp - NamesBelow(prefix, k)
    ensures q.(files := p.files, temp := p.temp, status := p.status, errorMessage := p.errorMessage) == p
  {
    var k := FirstMissing(p.temp, prefix, total);
    Failed(p.(files := p.files[DesignFile(filename) := Joined(p.temp, prefix, k)],
              temp := p.temp - NamesBelow(prefix, k)), MissingChunkMessage)
  }

  /** The chunk that completes the upload leaves exactly the joined chunks as the drawing, and a ready project. */
  lemma ChunkUploadJoined(p: Project, chunkData: Bytes, info: ChunkInfo, parsed: Option<seq<Group>>, now: Stamp)
    requires info.totalChunks != 0
    requires var stored := StoreChunk(p.temp, ChunkPrefix(info), info.chunkNumber, chunkData);
             ReceivedCount(stored, ChunkPrefix(info)) == info.totalChunks
             && HasChunks(stored, ChunkPrefix(info), info.totalChunks)
    ensures var prefix := ChunkPrefix(info);
            var stored := StoreChunk(p.temp, prefix, info.chunkNumber, chunkData);
            var s := ChunkUpload(p, chunkData, info, parsed, now);
            var joined := Joined(stored, prefix, info.totalChunks);
            s.reply == Ok(ChunkReply(Ready, 100, info.totalChunks, info.totalChunks))
            && s.project.svgFile == Some(DesignFile(info.filename))
            && s.project.files == p.files[DesignFile(info.filename) := joined]
            && s.project.fileSize == |joined|
            && s.project.temp == stored - NamesBelow(prefix, info.totalChunks)
            && s.project.availableLayers == ExtractedLayers(parsed)
  {
  }

  /**
   * A chunk that leaves the count short of the total: it is stored, the
   * progress is `int((n+1)/total*100)`, and the drawing and its file are
   * untouched.
   */
  lemma ChunkUploadPartial(p: Project, chunkData: Bytes, info: ChunkInfo, parsed: Option<seq<Group>>, now: Stamp)
    requires info.totalChunks != 0
    requires ReceivedCount(StoreChunk(p.temp, ChunkPrefix(info), info.chunkNumber, chunkData), ChunkPrefix(info))
             != info.totalChunks
    ensures var stored := StoreChunk(p.temp, ChunkPrefix(info), info.chunkNumber, chunkData);
            var s := ChunkUpload(p, chunkData, info, parsed, now);
            && s.reply.Ok? && s.reply.value.progress == Percent(info.chunkNumber, info.totalChunks)
            && s.reply.value.chunksReceived == ReceivedCount(stored, ChunkPrefix(info))
            && s.project.progress == Percent(info.chunkNumber, info.totalChunks)
            && s.project.temp == stored && s.project.files == p.files
            && s.project.svgFile == p.svgFile && s.project.availableLayers == p.availableLayers
  {
  }

  /**
   * The count reaches the total but some index below it is missing: the
   * chunks before the first missing one are written out and removed, and
   * the project is marked `error`.
   */
  lemma ChunkUploadMissing(p: Project, chunkData: Bytes, info: ChunkInfo, parsed: Option<seq<Group>>, now: Stamp)
    requires info.totalChunks != 0
    requires var stored := StoreChunk(p.temp, ChunkPrefix(info), info.chunkNumber, chunkData);
             ReceivedCount(stored, ChunkPrefix(info)) == info.totalChunks
             && !HasChunks(stored, ChunkPrefix(info), info.totalChunks)
    ensures var prefix := ChunkPrefix(info);
            var stored := StoreChunk(p.temp, prefix, info.chunkNumber, chunkData);
            var k := FirstMissing(stored, prefix, info.totalChunks);
            var s := ChunkUpload(p, chunkData, info, parsed, now);
            && s.reply == Err(MissingChunkMessage) && s.project.status == ProjectError
            && s.project.files == p.files[DesignFile(info.filename) := Joined(stored, prefix, k)]
            && s.project.temp == stored - NamesBelow(prefix, k)
            && s.project.svgFile == p.svgFile
  {
  }

  /** Chunk 0 sets status `uploading` unless the same call finishes or fails the upload. */
  lemma FirstChunkUploading(p: Project, chunkData: Bytes, info: ChunkInfo, parsed: Option<seq<Group>>, now: Stamp)
    requires info.chunkNumber == 0 && info.totalChunks != 0
    requires ReceivedCount(StoreChunk(p.temp, ChunkPrefix(info), 0, chunkData), ChunkPrefix(info)) != info.totalChunks
    ensures var s := ChunkUpload(p, chunkData, info, parsed, now);
            s.project.status == Uploading && s.reply.Ok? && s.project.progress == Percent(0, info.totalChunks)
  {
  }

  /** The body of `upload_svg_chunked` once a project exists. */
  method ChunkStep(p: Project, chunkData: Bytes, info: ChunkInfo, parsed: Option<seq<Group>>, now: Stamp)
    returns (s: Step<ChunkReply>)
    ensures s == ChunkUpload(p, chunkData, info, parsed, now)
  {
    var started := ChunkStarted(p, chunkData, info);
    var prefix := ChunkPrefix(info);
    var total := info.totalChunks;
    if total == 0 {
      return Step(Failed(started, DivisionMessage), Err(DivisionMessage));
    }
    var progressed := started.(progress := Percent(info.chunkNumber, total));
    var count := ReceivedCount(progressed.temp, prefix);
    if count != total {
      return Step(progressed, Ok(ChunkReply(progressed.status, progressed.progress, count, total)));
    }
    var q := Reassemble(progressed, prefix, total, info.filename, parsed, now);
    s := Step(q, if q.status == ProjectError then Err(MissingChunkMessage) else Ok(ChunkReply(Ready, 100, count, total)));
  }

  /** The read-and-remove loop over `range(total_chunks)`, then the layer extraction. */
  method Reassemble(p: Project, prefix: string, total: nat, filename: string, parsed: Option<seq<Group>>, now: Stamp)
    returns (q: Project)
    ensures HasChunks(p.temp, prefix, total) ==> q == Reassembled(p, prefix, total, filename, parsed, now)
    ensures !HasChunks(p.temp, prefix, total) ==> q == Interrupted(p, prefix, total, filename)
  {
    var out, missing, rest := ReadAndRemoveChunks(p.temp, prefix, total);
    var path := DesignFile(filename);
    if missing.Some? {
      return Failed(p.(files := p.files[path := out], temp := rest), MissingChunkMessage);
    }
    var layers := ExtractLayers(parsed);
    ExtractedLayersCases(parsed);
    q := p.(svgFile := Some(path), fileSize := |out|, originalFilename := Some(filename), uploadedAt := Some(now),
            svgUploaded := true, progress := 100, files := p.files[path := out], temp := rest,
            availableLayers := layers, status := Ready);
  }

  class ProjectManager {
    var current: Option<Project>

    predicate Valid()
      reads this
    {
      current.Some? ==> Consistent(current.value)
    }

    constructor()
      ensures current == None && Valid()
    {
      current := None;
    }

    /** `create_project`: the previous project is discarded and a fresh one, without a drawing, is created. */
    method CreateProject(data: ProjectData, id: string, now: Stamp) returns (project: Project)
      modifies this
      ensures current == Some(project) && Valid() && project == NewProject(data, id, now)
    {
      current := None;
      project := NewProject(data, id, now);
      current := Some(project);
    }

    /** `upload_svg`; `writeError` is the message of the exception writing the file raised, if it did. */
    method UploadSvg(fileData: Bytes, filename: string, writeError: Option<string>, parsed: Option<seq<Group>>, now: Stamp)
      returns (r: Result<Project, string>)
      requires Valid()
      modifies this
      ensures Valid()
      ensures old(current).None? ==> r == Err(NoProjectMessage) && current == None
      ensures old(current).Some? ==>
                var s := WholeUpload(old(current).value, fileData, filename, writeError, parsed, now);
                current == Some(s.project) && r == s.reply
    {
      if current.None? {
        return Err(NoProjectMessage);
      }
      var p := current.value.(status := Uploading, updatedAt := now);
      if writeError.Some? {
        current := Some(Failed(p, writeError.value));
        return Err(writeError.value);
      }
      var path := DesignFile(filename);
      var layers := ExtractLayers(parsed);
      ExtractedLayersCases(parsed);
      p := p.(svgFile := Some(path), fileSize := |fileData|, originalFilename := Some(filename), uploadedAt := Some(now),
              svgUploaded := true, progress := 100, files := p.files[path := fileData],
              availableLayers := layers, status := Ready);
      current := Some(p);
      r := Ok(p);
    }

    /** `upload_svg_chunked`. */
    method UploadSvgChunked(chunkData: Bytes, info: ChunkInfo, parsed: Option<seq<Group>>, now: Stamp)
      returns (r: Result<ChunkReply, string>)
      requires Valid()
      modifies this
      ensures Valid()
      ensures old(current).None? ==> r == Err(NoProjectMessage) && current == None
      ensures old(current).Some? ==>
                var s := ChunkUpload(old(current).value, chunkData, info, parsed, now);
                current == Some(s.project) && r == s.reply
    {
      if current.None? {
        return Err(NoProjectMessage);
      }
      var s := ChunkStep(current.value, chunkData, info, parsed, now);
      current := Some(s.project);
      r := s.reply;
    }

    /** `is_project_ready`; a ready project's drawing is stored with the size it reports. */
    function IsProjectReady(): (r: bool)
      reads this
      ensures r <==> current.Some? && current.value.status == Ready
      ensures Valid() && r ==> current.value.svgFile.Some? && current.value.svgFile.value in current.value.files
                               && current.value.fileSize == |current.value.files[current.value.svgFile.value]|
    {
      current.Some? && current.value.status == Ready
    }

    /**
     * `get_original_svg_file_name` looks up the key `original_svg_file_name`,
     * which no upload writes (they write `original_filename`), so it never
     * finds a name, even right after an upload recorded one.
     */
    function GetOriginalSvgFileName(): (r: Option<string>)
      reads this
      ensures r == None
      ensures current.Some? && current.value.originalFilename.Some? ==> r != current.value.originalFilename
    {
      if current.None? then None else StringField(current.value, "original_svg_file_name")
    }

    /** `is_valid_layer` over `available_layers`. */
    function IsValidLayer(name: string): (r: bool)
      reads this
      ensures r <==> current.Some? && (name == AllLayers || exists i | 0 <= i < |current.value.availableLayers| ::
                       current.value.availableLayers[i].name == name || current.value.availableLayers[i].id == name)
    {
      ValidLayer(if current.None? then None else Some(current.value.availableLayers), name)
    }

    /** `clear_project`: true when there was a project; none is left. */
    method ClearProject() returns (existed: bool)
      modifies this
      ensures existed == old(current).Some? && current == None && Valid()
    {
      existed := current.Some?;
      current := None;
    }
  }

  /** After a successful whole upload the recorded name is under `original_filename`, where the getter does not look. */
  lemma OriginalNameUnreachable(p: Project, fileData: Bytes, filename: string, parsed: Option<seq<Group>>, now: Stamp)
    ensures var q := WholeUpload(p, fileData, filename, None, parsed, now).project;
            StringField(q, "original_filename") == Some(filename)
            && StringField(q, "original_svg_file_name") == None
  {
  }
}
