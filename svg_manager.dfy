/**
 * The SVG manager: one active drawing, uploaded whole or in a chunked
 * session that chunk 0 opens, with its layer list.
 *
 * The drawing's directory is two maps: `files` for the drawing and `temp`
 * for the chunk scratch area. Removing the directory drops both. The id
 * (`svg_{time}_{md5}`), the current time and the parse of the written
 * drawing are parameters.
 */
module SvgStore {
  import opened Wrappers
  import opened Ints
  import opened ChunkStore
  import opened SvgLayers

  type Stamp = nat

  /**
   * The `current_svg` dictionary. A chunked session has no `svg_file`,
   * `file_size` (read as 0) or `uploaded_at` until it completes; a whole
   * upload has no `uploading` key, which reads as false.
   */
  datatype Svg = Svg(
    id: string,
    svgFile: Option<string>,
    fileSize: nat,
    originalFilename: string,
    uploadedAt: Option<Stamp>,
    availableLayers: seq<Layer>,
    progress: int,
    uploading: bool,
    files: Dir,
    temp: Dir)

  /** The dictionary `upload_svg_chunked` returns. */
  datatype ChunkReply = ChunkReply(progress: int, chunksReceived: nat, totalChunks: int)

  /** The current drawing after a call, and what the call returned or raised. */
  datatype Step<+T> = Step(current: Option<Svg>, reply: Result<T, string>)

  const NoSessionMessage := "No active upload session"

  function ChunkPrefix(info: ChunkInfo): string {
    OrElse(info.fileId, DefaultFileId) + "_chunk_"
  }

  /**
   * What holds of the current drawing between calls: once a drawing file
   * is recorded, the upload is over, the file is stored with the recorded
   * size, and the layer list is non-empty.
   */
  predicate Consistent(s: Svg) {
    s.svgFile.Some? ==>
      !s.uploading && s.svgFile.value in s.files && s.fileSize == |s.files[s.svgFile.value]|
      && s.availableLayers != []
  }

  /** `_is_svg_ready_internal`: a drawing file is recorded and no upload is in progress. */
  predicate Ready(current: Option<Svg>) {
    current.Some? && current.value.svgFile.Some? && !current.value.uploading
  }

  /** The record a whole upload leaves: the file in a fresh directory, progress 100, its layers. */
  function Stored(id: string, fileData: Bytes, filename: string, parsed: Option<seq<Group>>, now: Stamp): (s: Svg)
    ensures Consistent(s) && Ready(Some(s))
    ensures s.files == map[DesignFile(filename) := fileData] && s.fileSize == |fileData| && s.temp == map[]
    ensures s.progress == 100 && s.originalFilename == filename && s.availableLayers == ExtractedLayers(parsed)
  {
    ExtractedLayersCases(parsed);
    Svg(id, Some(DesignFile(filename)), |fileData|, filename, Some(now), ExtractedLayers(parsed), 100, false,
        map[DesignFile(filename) := fileData], map[])
  }

  /**
   * `upload_svg`: any current drawing is removed first, so a failed write
   * (`writeError`) leaves no drawing at all.
   */
  function WholeUpload(id: string, fileData: Bytes, filename: string, writeError: Option<string>,
                       parsed: Option<seq<Group>>, now: Stamp): (s: Step<Svg>)
    ensures writeError.Some? ==> s == Step(None, Err(writeError.value))
    ensures writeError.None? ==> s.current.Some? && s.reply == Ok(s.current.value) && Ready(s.current)
                                 && Consistent(s.current.value)
                                 && DesignFile(filename) in s.current.value.files
                                 && s.current.value.files[DesignFile(filename)] == fileData
  {
    if writeError.Some? then Step(None, Err(writeError.value))
    else
      var s := Stored(id, fileData, filename, parsed, now);
      Step(Some(s), Ok(s))
  }

  /** The fresh session chunk 0 opens: nothing stored, progress 0, uploading. */
  function Session(id: string, filename: string): (s: Svg)
    ensures Consistent(s) && s.uploading && s.svgFile.None? && s.progress == 0 && s.files == map[] && s.temp == map[]
  {
    Svg(id, None, 0, filename, None, [], 0, true, map[], map[])
  }

  /**
   * `upload_svg_chunked`. Chunk 0 replaces whatever was current with a new
   * session; any other chunk needs an open session. The chunk is stored
   * under `{file_id}_chunk_{n}`; a zero total then raises (division by
   * zero). The progress becomes `int((n+1)/total*100)`. When as many chunks
   * with the prefix are stored as announced, chunks `0 .. total-1` are
   * joined and removed: a missing one raises after the chunks before it
   * were written out; otherwise the joined bytes are the drawing and the
   * session ends. A raise leaves the session as far as it got.
   */
  function ChunkUpload(current: Option<Svg>, chunkData: Bytes, info: ChunkInfo, id: string,
                       parsed: Option<seq<Group>>, now: Stamp): (s: Step<ChunkReply>)
    requires current.Some? ==> Consistent(current.value)
    ensures s.current.Some? ==> Consistent(s.current.value)
    ensures info.chunkNumber != 0 && (current.None? || !current.value.uploading) ==>
              s == Step(current, Err(NoSessionMessage))
    ensures s.reply.Ok? ==> s.reply.value.totalChunks == info.totalChunks && s.current.Some?
                            && s.reply.value.progress == s.current.value.progress
    ensures info.chunkNumber == 0 ==> s.current.Some? && s.current.value.id == id
                                      && s.current.value.originalFilename == info.filename
  {
    var session := if info.chunkNumber == 0 then Some(Session(id, info.filename)) else current;
    if session.None? || !session.value.uploading then Step(session, Err(NoSessionMessage))
    else
      var prefix := ChunkPrefix(info);
      var started := session.value.(temp := StoreChunk(session.value.temp, prefix, info.chunkNumber, chunkData));
      var total := info.totalChunks;
      if total == 0 then Step(Some(started), Err(DivisionMessage))
      else
        var progressed := started.(progress := Percent(info.chunkNumber, total));
        var count := ReceivedCount(progressed.temp, prefix);
        if count != total then
          Step(Some(progressed), Ok(ChunkReply(progressed.progress, count, total)))
        else if HasChunks(progressed.temp, prefix, total) then
          Step(Some(Reassembled(progressed, prefix, total, info.filename, parsed, now)), Ok(ChunkReply(100, count, total)))
        else
          Step(Some(Interrupted(progressed, prefix, total, info.filename)), Err(MissingChunkMessage))
  }

  /**
   * All chunks present: the joined bytes become the drawing, progress 100,
   * the session over. The file is named after the `filename` of the chunk
   * that completes the upload, not the one that opened the session.
   */
  function Reassembled(s: Svg, prefix: string, total: nat, filename: string, parsed: Option<seq<Group>>, now: Stamp): (q: Svg)
    requires HasChunks(s.temp, prefix, total)
    ensures Consistent(q) && Ready(Some(q)) && q.progress == 100
    ensures q.svgFile == Some(DesignFile(filename))
    ensures q.files == s.files[DesignFile(filename) := Joined(s.temp, prefix, total)]
    ensures q.temp == s.temp - NamesBelow(prefix, total)
    ensures q.availableLayers == ExtractedLayers(parsed)
  {
    ExtractedLayersCases(parsed);
    var path := DesignFile(filename);
    var bytes := Joined(s.temp, prefix, total);
    s.(svgFile := Some(path), fileSize := |bytes|, uploadedAt := Some(now), progress := 100, uploading := false,
       availableLayers := ExtractedLayers(parsed), files := s.files[path := bytes],
       temp := s.temp - NamesBelow(prefix, total))
  }

  /** A missing chunk: what was read is written out and those chunks removed; the session stays open. */
  function Interrupted(s: Svg, prefix: string, total: nat, filename: string): (q: Svg)
    requires s.uploading && Consistent(s)
    ensures Consistent(q) && q.uploading && q.svgFile == s.svgFile
    ensures var k := FirstMissing(s.temp, prefix, total);
            q.files == s.files[DesignFile(filename) := Joined(s.temp, prefix, k)]
            && q.temp == s.temp - NamesBelow(prefix, k)
  {
    var k := FirstMissing(s.temp, prefix, total);
    s.(files := s.files[DesignFile(filename) := Joined(s.temp, prefix, k)],
       temp := s.temp - NamesBelow(prefix, k))
  }

  /**
   * A completed chunked upload closes the session: every later chunk other
   * than 0 is refused and changes nothing.
   */
  lemma CompletedSessionClosed(current: Option<Svg>, chunkData: Bytes, info: ChunkInfo, id: string,
                               parsed: Option<seq<Group>>, now: Stamp,
                               later: Bytes, next: ChunkInfo, id': string)
    requires current.Some? ==> Consistent(current.value)
    requires next.chunkNumber != 0
    requires Ready(ChunkUpload(current, chunkData, info, id, parsed, now).current)
    ensures var after := ChunkUpload(current, chunkData, info, id, parsed, now).current;
            ChunkUpload(after, later, next, id', parsed, now) == Step(after, Err(NoSessionMessage))
  {
  }

  /**
   * The chunk that completes a session leaves exactly the joined chunks,
   * in index order, as the drawing, and the drawing ready.
   */
  lemma ChunkUploadJoined(s: Svg, chunkData: Bytes, info: ChunkInfo, id: string, parsed: Option<seq<Group>>, now: Stamp)
    requires Consistent(s) && s.uploading && info.chunkNumber != 0 && info.totalChunks != 0
    requires var stored := StoreChunk(s.temp, ChunkPrefix(info), info.chunkNumber, chunkData);
             ReceivedCount(stored, ChunkPrefix(info)) == info.totalChunks
             && HasChunks(stored, ChunkPrefix(info), info.totalChunks)
    ensures var stored := StoreChunk(s.temp, ChunkPrefix(info), info.chunkNumber, chunkData);
            var r := ChunkUpload(Some(s), chunkData, info, id, parsed, now);
            r.reply == Ok(ChunkReply(100, info.totalChunks, info.totalChunks)) && Ready(r.current)
            && r.current.value.svgFile == Some(DesignFile(info.filename))
            && r.current.value.files[DesignFile(info.filename)] == Joined(stored, ChunkPrefix(info), info.totalChunks)
            && r.current.value.temp == stored - NamesBelow(ChunkPrefix(info), info.totalChunks)
  {
  }

  /** A non-final chunk only lands in the scratch area and moves the progress; the session stays open. */
  lemma ChunkUploadPartial(s: Svg, chunkData: Bytes, info: ChunkInfo, id: string, parsed: Option<seq<Group>>, now: Stamp)
    requires Consistent(s) && s.uploading && info.chunkNumber != 0 && info.totalChunks != 0
    requires ReceivedCount(StoreChunk(s.temp, ChunkPrefix(info), info.chunkNumber, chunkData), ChunkPrefix(info))
             != info.totalChunks
    ensures var r := ChunkUpload(Some(s), chunkData, info, id, parsed, now);
            r.current == Some(s.(temp := StoreChunk(s.temp, ChunkPrefix(info), info.chunkNumber, chunkData),
                                 progress := Percent(info.chunkNumber, info.totalChunks)))
            && !Ready(r.current) && r.reply.Ok?
  {
  }

  /** The body of `upload_svg_chunked` after the session check. */
  method ChunkStep(current: Option<Svg>, chunkData: Bytes, info: ChunkInfo, id: string,
                   parsed: Option<seq<Group>>, now: Stamp) returns (s: Step<ChunkReply>)
    requires current.Some? ==> Consistent(current.value)
    ensures s == ChunkUpload(current, chunkData, info, id, parsed, now)
  {
    var session := if info.chunkNumber == 0 then Some(Session(id, info.filename)) else current;
    if session.None? || !session.value.uploading {
      return Step(session, Err(NoSessionMessage));
    }
    var prefix := ChunkPrefix(info);
    var started := session.value.(temp := StoreChunk(session.value.temp, prefix, info.chunkNumber, chunkData));
    var total := info.totalChunks;
    if total == 0 {
      return Step(Some(started), Err(DivisionMessage));
    }
    var progressed := started.(progress := Percent(info.chunkNumber, total));
    var count := ReceivedCount(progressed.temp, prefix);
    if count != total {
      return Step(Some(progressed), Ok(ChunkReply(progressed.progress, count, total)));
    }
    var q := Reassemble(progressed, prefix, total, info.filename, parsed, now);
    s := Step(Some(q), if q.uploading then Err(MissingChunkMessage) else Ok(ChunkReply(100, count, total)));
  }

  /** The read-and-remove loop over `range(total_chunks)`, then the layer extraction. */
  method Reassemble(s: Svg, prefix: string, total: nat, filename: string, parsed: Option<seq<Group>>, now: Stamp)
    returns (q: Svg)
    requires s.uploading && Consistent(s)
    ensures HasChunks(s.temp, prefix, total) ==> q == Reassembled(s, prefix, total, filename, parsed, now) && !q.uploading
    ensures !HasChunks(s.temp, prefix, total) ==> q == Interrupted(s, prefix, total, filename) && q.uploading
  {
    var out, missing, rest := ReadAndRemoveChunks(s.temp, prefix, total);
    var path := DesignFile(filename);
    if missing.Some? {
      return s.(files := s.files[path := out], temp := rest);
    }
    var layers := ExtractLayers(parsed);
    q := s.(svgFile := Some(path), fileSize := |out|, uploadedAt := Some(now), progress := 100, uploading := false,
            availableLayers := layers, files := s.files[path := out], temp := rest);
  }

  class SvgManager {
    var current: Option<Svg>

    predicate Valid()
      reads this
    {
      current.Some? ==> Consistent(current.value)
    }

    constructor()
      ensures current == None && Valid()
    {
      current := None;
    }

    /** `upload_svg`; `writeError` is the message of the exception writing the file raised, if it did. */
    method UploadSvg(fileData: Bytes, filename: string, id: string, writeError: Option<string>,
                     parsed: Option<seq<Group>>, now: Stamp) returns (r: Result<Svg, string>)
      modifies this
      ensures Valid()
      ensures var s := WholeUpload(id, fileData, filename, writeError, parsed, now);
              current == s.current && r == s.reply
    {
      current := None;
      if writeError.Some? {
        return Err(writeError.value);
      }
      var path := DesignFile(filename);
      var layers := ExtractLayers(parsed);
      ExtractedLayersCases(parsed);
      var s := Svg(id, Some(path), |fileData|, filename, Some(now), layers, 100, false, map[path := fileData], map[]);
      current := Some(s);
      r := Ok(s);
    }

    /** `upload_svg_chunked`; `id` is the id a new session would get. */
    method UploadSvgChunked(chunkData: Bytes, info: ChunkInfo, id: string, parsed: Option<seq<Group>>, now: Stamp)
      returns (r: Result<ChunkReply, string>)
      requires Valid()
      modifies this
      ensures Valid()
      ensures var s := ChunkUpload(old(current), chunkData, info, id, parsed, now);
              current == s.current && r == s.reply
    {
      var s := ChunkStep(current, chunkData, info, id, parsed, now);
      current := s.current;
      r := s.reply;
    }

    /** `is_svg_ready`; a ready drawing is stored with the size it reports and lists at least one layer. */
    function IsSvgReady(): (r: bool)
      reads this
      ensures r <==> Ready(current)
      ensures Valid() && r ==> current.value.svgFile.value in current.value.files
                               && current.value.fileSize == |current.value.files[current.value.svgFile.value]|
                               && current.value.availableLayers != []
    {
      current.Some? && current.value.svgFile.Some? && !current.value.uploading
    }

    /** `is_valid_layer` over `available_layers`. */
    function IsValidLayer(name: string): (r: bool)
      reads this
      ensures r <==> current.Some? && (name == AllLayers || exists i | 0 <= i < |current.value.availableLayers| ::
                       current.value.availableLayers[i].name == name || current.value.availableLayers[i].id == name)
    {
      ValidLayer(if current.None? then None else Some(current.value.availableLayers), name)
    }

    /** `clear_svg`: true when there was a drawing; none is left. */
    method ClearSvg() returns (existed: bool)
      modifies this
      ensures existed == old(current).Some? && current == None && Valid()
    {
      existed := current.Some?;
      current := None;
    }
  }
}
