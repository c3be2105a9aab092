/**
 * The evidence upload form: a list of selected files, each given an id and a
 * hash when it is selected, a form describing the evidence, and the submit
 * handler that validates, builds the evidence record and resets the form.
 *
 * Clock readings and random texts are parameters: each selected file comes
 * with its own `FileNoise`.
 *
 * Long texts are written as concatenations of short pieces; the value is the
 * same string, and short literals keep the proofs cheap.
 */
module FileUploadEvidence {
  import opened Wrappers
  import opened Notifications
  import opened JsText
  import opened BlockchainUtils

  /** The `File` fields the component reads. */
  datatype SelectedFile = SelectedFile(name: string, size: nat, mimeType: string)

  /** `UploadedFile`, without the image preview. */
  datatype UploadedFile = UploadedFile(file: SelectedFile, id: string, hash: string)

  /** `evidenceData` of the upload form. */
  datatype UploadForm = UploadForm(id: string, description: string, location: string, category: string)

  const InitialForm: UploadForm := UploadForm("", "", "", "Digital Evidence")

  /** The inputs bound to `evidenceData`. */
  datatype FormField = Id | Description | Location

  /**
   * The values one iteration of `handleFileSelect` draws: the `Date.now()`
   * of the id, the `Math.random().toString(36)` text, and the clock reading
   * and random texts `generateBlockchainHash` draws.
   */
  datatype FileNoise = FileNoise(idTime: nat, base36: string, hashTime: nat, salt: string, randomHex: string)

  /** `FILE-${Date.now()}-${Math.random().toString(36).substr(2, 9)}`. */
  function FileId(idTime: nat, base36: string): (id: string)
    ensures |id| >= 7 && id[..5] == "FILE-"
  {
    "FILE-" + NumberToString(idTime, 10) + "-" + Substr(base36, 2, 9)
  }

  /** The entry one selected file becomes: the file, its generated id, and the hash over that id and the uploader. */
  predicate IsUpload(entry: UploadedFile, file: SelectedFile, noise: FileNoise, username: string) {
    entry.file == file && entry.id == FileId(noise.idTime, noise.base36) &&
    entry.hash == BlockchainHash(entry.id, username, noise.hashTime, noise.salt, noise.randomHex)
  }

  /** `files.filter(f => f.id !== fileId)`. */
  function Without(files: seq<UploadedFile>, fileId: string): (kept: seq<UploadedFile>)
    ensures forall f :: f in kept <==> f in files && f.id != fileId
    ensures |kept| <= |files|
    ensures (forall k :: 0 <= k < |files| ==> files[k].id != fileId) ==> kept == files
  {
    if files == [] then []
    else if files[0].id == fileId then Without(files[1..], fileId)
    else [files[0]] + Without(files[1..], fileId)
  }

  /** Filtering keeps order: filtering a concatenation concatenates the filtered parts. */
  lemma {:induction false} WithoutAppend(a: seq<UploadedFile>, b: seq<UploadedFile>, fileId: string)
    ensures Without(a + b, fileId) == Without(a, fileId) + Without(b, fileId)
  {
    if a == [] {
      assert a + b == b;
    } else {
      assert (a + b)[0] == a[0] && (a + b)[1..] == a[1..] + b;
      WithoutAppend(a[1..], b, fileId);
      if a[0].id == fileId {
        assert Without(a + b, fileId) == Without(a[1..] + b, fileId);
      } else {
        assert Without(a + b, fileId) == [a[0]] + Without(a[1..] + b, fileId);
      }
    }
  }

  /** Removing an id twice is removing it once. */
  lemma {:induction false} WithoutIdempotent(files: seq<UploadedFile>, fileId: string)
    ensures Without(Without(files, fileId), fileId) == Without(files, fileId)
  {
    if files != [] {
      WithoutIdempotent(files[1..], fileId);
      if files[0].id != fileId {
        assert ([files[0]] + Without(files[1..], fileId))[1..] == Without(files[1..], fileId);
      }
    }
  }

  /** Removing by id removes exactly the entries with that id: the count of every other entry is kept. */
  lemma {:induction false} WithoutCounts(files: seq<UploadedFile>, fileId: string, f: UploadedFile)
    ensures multiset(Without(files, fileId))[f] == if f.id == fileId then 0 else multiset(files)[f]
  {
    if files != [] {
      WithoutCounts(files[1..], fileId, f);
      assert multiset(files) == multiset([files[0]]) + multiset(files[1..]) by {
        assert files == [files[0]] + files[1..];
      }
      if files[0].id == fileId {
        assert Without(files, fileId) == Without(files[1..], fileId);
      } else {
        assert multiset(Without(files, fileId)) == multiset([files[0]]) + multiset(Without(files[1..], fileId));
      }
    }
  }

  /** Appending the upload of the next selected file keeps every entry the upload of its own file. */
  lemma UploadsExtend(added: seq<UploadedFile>, entry: UploadedFile, selected: seq<SelectedFile>, noise: seq<FileNoise>, username: string)
    requires |selected| == |noise| == |added| + 1
    requires forall k :: 0 <= k < |added| ==> IsUpload(added[k], selected[k], noise[k], username)
    requires IsUpload(entry, selected[|added|], noise[|added|], username)
    ensures forall k :: 0 <= k < |selected| ==> IsUpload((added + [entry])[k], selected[k], noise[k], username)
  {
    forall k | 0 <= k < |selected|
      ensures IsUpload((added + [entry])[k], selected[k], noise[k], username)
    {
      if k < |added| {
        assert (added + [entry])[k] == added[k];
      } else {
        assert k == |added| && (added + [entry])[k] == entry;
      }
    }
  }

  /** One entry of the record's `files`. */
  datatype FileRecord = FileRecord(filename: string, size: nat, mimeType: string, hash: string, uploadTime: string)

  /** `evidenceRecord`: the form, one record per file, the time, the uploader and a hash over the evidence id. */
  datatype EvidenceRecord = EvidenceRecord(
    form: UploadForm, files: seq<FileRecord>, timestamp: string, uploader: string, blockchainHash: string)

  /** `files.map(f => ({ filename, size, type, hash, uploadTime }))`, one upload time per file. */
  function FileRecords(files: seq<UploadedFile>, uploadTimes: seq<string>): (records: seq<FileRecord>)
    requires |uploadTimes| == |files|
    ensures |records| == |files|
    ensures forall k :: 0 <= k < |files| ==>
      records[k].filename == files[k].file.name && records[k].size == files[k].file.size &&
      records[k].mimeType == files[k].file.mimeType && records[k].hash == files[k].hash &&
      records[k].uploadTime == uploadTimes[k]
  {
    if files == [] then []
    else ([FileRecord(files[0].file.name, files[0].file.size, files[0].file.mimeType, files[0].hash, uploadTimes[0])]
      + FileRecords(files[1..], uploadTimes[1..]))
  }

  /** The two guards of `handleSubmit`, in order. */
  datatype Check = NoFiles | MissingInformation | Ready

  function SubmitCheck(fileCount: nat, form: UploadForm): (c: Check)
    ensures c == NoFiles <==> fileCount == 0
    ensures c == MissingInformation <==> fileCount > 0 && (form.id == "" || form.description == "")
    ensures c == Ready ==> form.id != "" && form.description != ""
  {
    if fileCount == 0 then NoFiles
    else if form.id == "" || form.description == "" then MissingInformation
    else Ready
  }

  /** The clock readings and random texts `handleSubmit` draws. */
  datatype SubmitNoise = SubmitNoise(uploadTimes: seq<string>, timestamp: string, hashTime: nat, salt: string, randomHex: string)

  class Uploader {
    var files: seq<UploadedFile>
    var evidenceData: UploadForm
    var isUploading: bool
    const username: string

    constructor(username: string)
      ensures files == [] && evidenceData == InitialForm && !isUploading && this.username == username
    {
      files := [];
      evidenceData := InitialForm;
      isUploading := false;
      this.username := username;
    }

    /** An input's `onChange`. */
    method Edit(field: FormField, text: string)
      modifies this
      ensures evidenceData == match field
        case Id => old(evidenceData).(id := text)
        case Description => old(evidenceData).(description := text)
        case Location => old(evidenceData).(location := text)
      ensures files == old(files) && isUploading == old(isUploading)
    {
      match field
      case Id => evidenceData := evidenceData.(id := text);
      case Description => evidenceData := evidenceData.(description := text);
      case Location => evidenceData := evidenceData.(location := text);
    }

    /**
     * `handleFileSelect`: each selected file, in order, gets an id and a hash
     * and is appended; the files already listed stay in front.
     */
    method FileSelect(selected: seq<SelectedFile>, noise: seq<FileNoise>)
      requires |noise| == |selected|
      modifies this
      ensures |files| == |old(files)| + |selected| && files[..|old(files)|] == old(files)
      ensures forall k :: 0 <= k < |selected| ==> IsUpload(files[|old(files)| + k], selected[k], noise[k], username)
      ensures evidenceData == old(evidenceData) && isUploading == old(isUploading)
    {
      ghost var before := files;
      ghost var added: seq<UploadedFile> := [];
      for i := 0 to |selected|
        invariant files == before + added && |added| == i
        invariant forall k :: 0 <= k < i ==> IsUpload(added[k], selected[k], noise[k], username)
        invariant evidenceData == old(evidenceData) && isUploading == old(isUploading)
      {
        var uploadedFile := Upload(selected[i], noise[i]);
        UploadsExtend(added, uploadedFile, selected[..i + 1], noise[..i + 1], username);
        added := added + [uploadedFile];
      }
      assert forall k :: 0 <= k < |selected| ==> files[|before| + k] == added[k];
    }

    /** One iteration of `handleFileSelect`: the file, with its new id and hash, appended to the list. */
    method Upload(file: SelectedFile, noise: FileNoise) returns (uploadedFile: UploadedFile)
      modifies this
      ensures IsUpload(uploadedFile, file, noise, username)
      ensures files == old(files) + [uploadedFile]
      ensures evidenceData == old(evidenceData) && isUploading == old(isUploading)
    {
      var fileId := FileId(noise.idTime, noise.base36);
      var hash := GenerateBlockchainHash(fileId, username, noise.hashTime, noise.salt, noise.randomHex);
      uploadedFile := UploadedFile(file, fileId, hash);
      files := files + [uploadedFile];
    }

    /** `removeFile`: every entry with that id goes, the others stay in order. */
    method RemoveFile(fileId: string)
      modifies this
      ensures files == Without(old(files), fileId)
      ensures evidenceData == old(evidenceData) && isUploading == old(isUploading)
    {
      files := Without(files, fileId);
    }

    /**
     * `handleSubmit`, with the delay not modelled. With no files, or with an
     * empty id or description, only an error toast; otherwise the evidence
     * record, a toast, one warning notification, the form reset and the file
     * list emptied.
     */
    method Submit(noise: SubmitNoise) returns (toast: Toast, notes: seq<Notification>, record: Option<EvidenceRecord>)
      requires |noise.uploadTimes| == |files|
      modifies this
      ensures var c := SubmitCheck(|old(files)|, old(evidenceData));
        (c == NoFiles ==> toast.title == "No Files Selected") &&
        (c == MissingInformation ==> toast.title == "Missing " + "Information") &&
        (c != Ready ==> (toast.destructive && notes == [] && record == None &&
          files == old(files) && evidenceData == old(evidenceData) && isUploading == old(isUploading)))
      ensures SubmitCheck(|old(files)|, old(evidenceData)) == Ready ==>
        record == Some(EvidenceRecord(old(evidenceData), FileRecords(old(files), noise.uploadTimes), noise.timestamp, username,
          BlockchainHash(old(evidenceData).id, username, noise.hashTime, noise.salt, noise.randomHex))) &&
        notes == [UploadedNote(old(evidenceData).id, |old(files)|)] &&
        toast == UploadedToast(old(evidenceData).id, |old(files)|) &&
        files == [] && evidenceData == InitialForm && !isUploading
    {
      notes, record := [], None;
      if |files| == 0 {
        toast := Toast("No Files Selected", "Please select " + "at least one " + "file to upload " + "as evidence.", true);
        return;
      }
      if evidenceData.id == "" || evidenceData.description == "" {
        toast := Toast("Missing " + "Information", "Please provide " + "evidence ID and " + "description.", true);
        return;
      }
      isUploading := true;
      var blockchainHash := GenerateBlockchainHash(evidenceData.id, username, noise.hashTime, noise.salt, noise.randomHex);
      record := Some(EvidenceRecord(evidenceData, FileRecords(files, noise.uploadTimes), noise.timestamp, username, blockchainHash));
      toast := UploadedToast(evidenceData.id, |files|);
      notes := [UploadedNote(evidenceData.id, |files|)];
      evidenceData := InitialForm;
      files := [];
      isUploading := false;
    }
  }

  /** The success toast. */
  function UploadedToast(id: string, count: nat): Toast {
    Toast("Evidence " + "Uploaded " + "Successfully", "Evidence " + id + " with " + NumberToString(count, 10) +
      " file(s) has " + "been stored on " + "the blockchain.", false)
  }

  /** The warning raised on a successful upload. */
  function UploadedNote(id: string, count: nat): Notification {
    Notification("Evidence " + id + " uploaded with " + NumberToString(count, 10) + " file(s)", Warning)
  }
}
