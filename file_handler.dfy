/** backend/utils/file_handler.py: the upload validators and the virus-scan verdict. Each check
    answers like the Python code, with a flag and an optional message (`Tuple[bool,
    Optional[str]]`). */
module FileHandling {
  import opened Wrappers
  import opened Strings
  import Paths
  import Config

  /** The answer of every validator: `(is_valid, error)`. */
  datatype Verdict = Verdict(valid: bool, error: Option<string>)

  const Accept := Verdict(true, None)

  function Reject(message: string): (v: Verdict)
    ensures !v.valid && v.error == Some(message)
  {
    Verdict(false, Some(message))
  }

  /** A verdict is well formed when it carries a message exactly when it rejects. */
  predicate WellFormed(v: Verdict) {
    v.error.None? <==> v.valid
  }

  /** The fixed parts of the validators' error messages. */
  const SizeErrorPrefix := "File size exceeds maximum allowed size of "
  const ExtensionErrorMiddle := "' not allowed. Allowed: "
  const MimeErrorPrefix := "Error validating file type: "
  const MimeMismatchPrefix := "Invalid file type. Expected audio file, got "
  const ScanErrorPrefix := "Error scanning file: "
  const VirusPrefix := "Virus detected: "

  /** `FileHandler.ALLOWED_MIME_TYPES`. */
  const AllowedMimeTypes: set<string> := {
    "audio/mpeg", "audio/wav", "audio/x-wav", "audio/wave", "audio/ogg", "audio/x-m4a",
    "audio/mp4", "audio/flac", "audio/x-flac", "audio/aac", "audio/x-ms-wma"
  }

  /** The handler the gateway builds: the size limit is `MAX_FILE_SIZE_MB` whole mebibytes, and
      `allowedExtensions` lists the allowed set in the order Python iterates it, which is the
      order the rejection message names them in. */
  datatype FileHandler = FileHandler(maxSizeMb: int, allowedExtensions: seq<string>)
  {
    function MaxSizeBytes(): int {
      Config.MaxFileSizeBytes(maxSizeMb)
    }

    predicate Allows(ext: string) {
      ext in allowedExtensions
    }
  }

  /** `max_size_bytes / (1024 * 1024)` printed as a Python float: a whole number of mebibytes
      prints with a trailing ".0". */
  function MbText(mb: int): string {
    IntToString(mb) + ".0"
  }

  /** `validate_file_size`: a file of exactly the limit is accepted, one byte more is not. */
  function ValidateFileSize(h: FileHandler, fileSize: int): (v: Verdict)
    ensures WellFormed(v)
    ensures v.valid <==> fileSize <= h.maxSizeMb * 1048576
    ensures !v.valid ==>
      v.error == Some(SizeErrorPrefix + MbText(h.maxSizeMb) + "MB")
  {
    if fileSize > h.MaxSizeBytes() then
      Reject(SizeErrorPrefix + MbText(h.maxSizeMb) + "MB")
    else Accept
  }

  lemma LowerKeepsDot(s: string)
    ensures '.' in Lower(s) <==> '.' in s
  {
    if '.' in s {
      var k :| 0 <= k < |s| && s[k] == '.';
      assert Lower(s)[k] == '.';
    }
  }

  /** `filename.rsplit('.', 1)[-1].lower() if '.' in filename else ''`. */
  function ExtensionOf(filename: string): (ext: string)
    ensures '.' !in ext && IsLower(ext)
    ensures '.' !in filename ==> ext == ""
  {
    if '.' in filename then
      var i := LastIndexOf(filename, '.');
      LastIndexOfIsLast(filename, '.');
      LowerKeepsDot(filename[i + 1..]);
      LowerIsLower(filename[i + 1..]);
      Lower(filename[i + 1..])
    else ""
  }

  /** The extension is whatever follows the last dot, lower-cased. */
  lemma ExtensionOfDotted(stem: string, ext: string)
    requires '.' !in ext
    ensures ExtensionOf(stem + "." + ext) == Lower(ext)
  {
    var f := stem + "." + ext;
    assert f == stem + ['.'] + ext;
    assert f[|stem|] == '.';
    Paths.LastIndexOfMarked(stem, '.', ext);
    assert f[|stem| + 1..] == ext;
  }

  /** The extension does not depend on the case of the file name. */
  lemma ExtensionCaseInsensitive(filename: string)
    ensures ExtensionOf(Lower(filename)) == ExtensionOf(filename)
  {
    LowerKeepsDot(filename);
    if '.' in filename {
      var i := LastIndexOf(filename, '.');
      LastIndexOfLower(filename, '.');
      LowerSlice(filename, i + 1, |filename|);
      LowerIsLower(filename[i + 1..]);
    }
  }

  /** `validate_file_extension`. */
  function ValidateFileExtension(h: FileHandler, filename: string): (v: Verdict)
    ensures WellFormed(v)
    ensures v.valid <==> h.Allows(ExtensionOf(filename))
  {
    var ext := ExtensionOf(filename);
    if !h.Allows(ext) then
      Reject("File extension '." + ext + ExtensionErrorMiddle
             + JoinWith(h.allowedExtensions, ", "))
    else Accept
  }

  /** Upper- and lower-case spellings of a file name are accepted or rejected together. */
  lemma ExtensionCheckIgnoresCase(h: FileHandler, filename: string)
    ensures ValidateFileExtension(h, Lower(filename)) == ValidateFileExtension(h, filename)
  {
    ExtensionCaseInsensitive(filename);
  }

  /** A name without a dot has the empty extension: accepted only if "" is in the allowed list,
      which the default `mp3,wav,...` list never is. */
  lemma NoDotRejected(h: FileHandler, filename: string)
    requires '.' !in filename && "" !in h.allowedExtensions
    ensures !ValidateFileExtension(h, filename).valid
  {
  }

  /** `validate_mime_type`, given what libmagic reports for the saved file: the type it
      detected, or the text of the exception it raised. */
  function ValidateMimeType(detected: Result<string>): (v: Verdict)
    ensures WellFormed(v)
    ensures v.valid <==> detected.Ok? && detected.value in AllowedMimeTypes
    ensures detected.Err? ==> v == Reject(MimeErrorPrefix + detected.error)
  {
    match detected
    case Err(e) => Reject(MimeErrorPrefix + e)
    case Ok(mime) =>
      if mime !in AllowedMimeTypes then
        Reject(MimeMismatchPrefix + mime)
      else Accept
  }

  /** The extension `generate_unique_filename` keeps: the lower-cased original one, or "bin"
      when the name has no dot. */
  function UniqueExtension(original: string): (ext: string)
    ensures '.' !in ext
  {
    if '.' in original then ExtensionOf(original) else "bin"
  }

  /** `generate_unique_filename`, with `uid` standing for `uuid.uuid4().hex`. */
  function GenerateUniqueFilename(original: string, uid: string): (name: string)
    ensures |name| == |uid| + 1 + |UniqueExtension(original)|
  {
    uid + "." + UniqueExtension(original)
  }

  /** The generated name's extension is the original's lower-cased extension, or "bin". */
  lemma UniqueNameExtension(original: string, uid: string)
    ensures ExtensionOf(GenerateUniqueFilename(original, uid)) == UniqueExtension(original)
  {
    var ext := UniqueExtension(original);
    ExtensionOfDotted(uid, ext);
    if '.' in original {
      LowerIsLower(original[LastIndexOf(original, '.') + 1..]);
    } else {
      assert Lower("bin") == "bin";
    }
  }

  /** Renaming never turns an accepted upload into a rejected one, or back. */
  lemma UniqueNameKeepsValidity(h: FileHandler, original: string, uid: string)
    requires '.' in original
    ensures ValidateFileExtension(h, GenerateUniqueFilename(original, uid)).valid
            == ValidateFileExtension(h, original).valid
  {
    UniqueNameExtension(original, uid);
  }

  /** Different dot-free ids (hex uuids) give different stored names, whatever the uploads were
      called. */
  lemma UniqueNamesDistinct(original1: string, uid1: string, original2: string, uid2: string)
    requires '.' !in uid1 && '.' !in uid2 && uid1 != uid2
    ensures GenerateUniqueFilename(original1, uid1) != GenerateUniqueFilename(original2, uid2)
  {
    var n1, n2 := GenerateUniqueFilename(original1, uid1), GenerateUniqueFilename(original2, uid2);
    assert n1 == uid1 + ['.'] + UniqueExtension(original1);
    assert n2 == uid2 + ['.'] + UniqueExtension(original2);
    IndexOfAfter(uid1, '.', UniqueExtension(original1));
    IndexOfAfter(uid2, '.', UniqueExtension(original2));
    if |uid1| == |uid2| {
      var k :| 0 <= k < |uid1| && uid1[k] != uid2[k];
      assert n1[k] == uid1[k] && n2[k] == uid2[k];
    }
  }

  /** What happens when `VirusScanner.__init__` tries to reach ClamAV. */
  datatype Probe =
    | NotInstalled                   // `import pyclamd` raised ImportError
    | ConnectRaised(message: string) // building the network client raised
    | Pinged(alive: bool)            // `ping()` answered
    | PingRaised(message: string)    // `ping()` raised

  /** Whether scanning stays on after the constructor's probe. */
  function EnabledAfterProbe(requested: bool, probe: Probe): (on: bool)
    ensures on <==> requested && probe == Pinged(true)
  {
    if !requested then false
    else match probe
      case Pinged(alive) => alive
      case _ => false
  }

  /** What `self.clamd.scan_file(path)` gives back. */
  datatype ScanReply =
    | NoThreat                                     // `None`: the file is clean
    | Report(findings: map<string, (string, string)>) // path -> (status, virus name)
    | ScanRaised(message: string)                  // the client raised

  class VirusScanner {
    var enabled: bool
    const clamavHost: string
    const clamavPort: int

    /** `VirusScanner.__init__`: scanning is switched off again when pyclamd is missing, the
        client cannot be built, or the daemon does not answer the ping. */
    constructor (enabled: bool, clamavHost: string, clamavPort: int, probe: Probe)
      ensures this.enabled == EnabledAfterProbe(enabled, probe)
      ensures this.enabled ==> enabled
      ensures this.clamavHost == clamavHost && this.clamavPort == clamavPort
    {
      this.enabled := enabled;
      this.clamavHost := clamavHost;
      this.clamavPort := clamavPort;
      new;
      if this.enabled {
        match probe
        case NotInstalled =>
          this.enabled := false;
        case ConnectRaised(_) =>
          this.enabled := false;
        case Pinged(alive) =>
          if !alive {
            this.enabled := false;
          }
        case PingRaised(_) =>
          this.enabled := false;
      }
    }

    /** `scan_file`: clean when scanning is off or ClamAV reports nothing; otherwise rejected,
        naming the virus, or "Unknown" when the report does not mention the path, and rejected
        as well when the client raises (fail safe). */
    function ScanFile(path: string, reply: ScanReply): (v: Verdict)
      reads this
      ensures WellFormed(v)
      ensures v.valid <==> !enabled || reply == NoThreat
      ensures enabled && reply.ScanRaised? ==>
        v == Reject(ScanErrorPrefix + reply.message)
      ensures enabled && reply.Report? ==>
        v == Reject(VirusPrefix
                    + (if path in reply.findings then reply.findings[path].1 else "Unknown"))
    {
      if !enabled then Accept
      else match reply
        case NoThreat => Accept
        case Report(findings) =>
          var virusName := if path in findings then findings[path].1 else "Unknown";
          Reject(VirusPrefix + virusName)
        case ScanRaised(e) => Reject(ScanErrorPrefix + e)
    }
  }

  /** A scanner whose probe failed accepts every file, whatever ClamAV would have said. */
  lemma FailedProbeAcceptsAll(scanner: VirusScanner, requested: bool, probe: Probe,
                              path: string, reply: ScanReply)
    requires scanner.enabled == EnabledAfterProbe(requested, probe)
    requires probe != Pinged(true)
    ensures scanner.ScanFile(path, reply) == Accept
  {
  }
}
