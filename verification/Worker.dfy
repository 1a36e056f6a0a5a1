/** The worker's processing pipeline: checksum, signature, antivirus verdict, promotion, result. */
module Worker {
  import opened Common
  import opened Entities

  const MAX_BYTES: nat := 25 * 1024 * 1024

  /** The failure codes a stage can raise. */
  datatype Code =
    | CorruptFile | FileTooLarge | ExecutableContent | UnsupportedFormat | EncryptedFile
    | Malware | ScanUnavailable | ExtractionRaised

  const PDF_MAGIC: seq<Byte> := [0x25, 0x50, 0x44, 0x46, 0x2d]
  const PNG_MAGIC: seq<Byte> := [0x89, 0x50, 0x4e, 0x47, 0x0d, 0x0a, 0x1a, 0x0a]
  const JPEG_MAGIC: seq<Byte> := [0xff, 0xd8, 0xff]
  const TIFF_LITTLE: seq<Byte> := [0x49, 0x49, 0x2a, 0x00]
  const TIFF_BIG: seq<Byte> := [0x4d, 0x4d, 0x00, 0x2a]
  const MZ_MAGIC: seq<Byte> := [0x4d, 0x5a]
  const ELF_MAGIC: seq<Byte> := [0x7f, 0x45, 0x4c, 0x46]
  const ZIP_MAGIC: seq<Byte> := [0x50, 0x4b, 0x03, 0x04]
  const ENCRYPT: seq<Byte> := [0x2f, 0x45, 0x6e, 0x63, 0x72, 0x79, 0x70, 0x74]

  function Signatures(contentType: string): Option<seq<seq<Byte>>> {
    match contentType
    case "application/pdf" => Some([PDF_MAGIC])
    case "image/png" => Some([PNG_MAGIC])
    case "image/jpeg" => Some([JPEG_MAGIC])
    case "image/tiff" => Some([TIFF_LITTLE, TIFF_BIG])
    case _ => None
  }

  predicate OccursAt(s: seq<Byte>, part: seq<Byte>, i: nat) {
    i + |part| <= |s| && s[i..i + |part|] == part
  }

  predicate Contains(s: seq<Byte>, part: seq<Byte>) {
    exists i :: 0 <= i <= |s| && OccursAt(s, part, i)
  }

  predicate MatchesSignature(content: seq<Byte>, contentType: string) {
    Signatures(contentType).Some? && exists m :: m in Signatures(contentType).value && m <= content
  }

  predicate Encrypted(content: seq<Byte>, contentType: string) {
    contentType == "application/pdf" && Contains(content[..if |content| < 4096 then |content| else 4096], ENCRYPT)
  }

  /** Size limits and magic bytes, in the order the worker checks them. */
  function ValidateSignature(content: seq<Byte>, contentType: string): Result<(), Code> {
    if |content| == 0 then Err(CorruptFile)
    else if |content| > MAX_BYTES then Err(FileTooLarge)
    else if MZ_MAGIC <= content || ELF_MAGIC <= content then Err(ExecutableContent)
    else if ZIP_MAGIC <= content then Err(UnsupportedFormat)
    else if Signatures(contentType).None? then Err(UnsupportedFormat)
    else if !MatchesSignature(content, contentType) then Err(CorruptFile)
    else if Encrypted(content, contentType) then Err(EncryptedFile)
    else Ok(())
  }

  predicate LockedAt(content: seq<Byte>, i: nat) {
    i + 8 <= |content| && i + 8 <= 4096 && content[i..i + 8] == [0x2f, 0x45, 0x6e, 0x63, 0x72, 0x79, 0x70, 0x74]
  }

  /** `/Encrypt` among the first 4096 bytes. */
  ghost predicate Locked(content: seq<Byte>) { exists i :: LockedAt(content, i) }

  /** The content begins like a file of the declared type. */
  predicate Genuine(content: seq<Byte>, contentType: string) {
    || (contentType == "application/pdf" && [0x25, 0x50, 0x44, 0x46, 0x2d] <= content)
    || (contentType == "image/png" && [0x89, 0x50, 0x4e, 0x47, 0x0d, 0x0a, 0x1a, 0x0a] <= content)
    || (contentType == "image/jpeg" && [0xff, 0xd8, 0xff] <= content)
    || (contentType == "image/tiff" && ([0x49, 0x49, 0x2a, 0x00] <= content || [0x4d, 0x4d, 0x00, 0x2a] <= content))
  }

  lemma GenuineIff(content: seq<Byte>, contentType: string)
    ensures MatchesSignature(content, contentType) <==> Genuine(content, contentType)
    ensures Signatures(contentType).Some? <==> contentType in {"application/pdf", "image/png", "image/jpeg", "image/tiff"}
  {
    match Signatures(contentType)
    case Some(magic) =>
      assert magic[0] in magic && magic[|magic| - 1] in magic;
    case None =>
  }

  lemma LockedIff(content: seq<Byte>)
    ensures Encrypted(content, "application/pdf") <==> Locked(content)
  {
    var head := content[..if |content| < 4096 then |content| else 4096];
    if Locked(content) {
      var i :| LockedAt(content, i);
      assert OccursAt(head, ENCRYPT, i);
    }
    if Contains(head, ENCRYPT) {
      var i :| 0 <= i <= |head| && OccursAt(head, ENCRYPT, i);
      assert content[i..i + 8] == ENCRYPT;
      assert LockedAt(content, i);
    }
  }

  /** Acceptance is decided by size, declared type, signature and encryption alone: no content with an accepted
      signature is an executable or an archive. What is not accepted fails with the code of the first check. */
  lemma SignatureDecides(content: seq<Byte>, contentType: string)
    ensures ValidateSignature(content, contentType).Ok? <==>
      |content| <= 26_214_400 && Genuine(content, contentType) && !(contentType == "application/pdf" && Locked(content))
    ensures ValidateSignature(content, contentType).Err? ==>
      ValidateSignature(content, contentType).error == (
        if |content| == 0 then CorruptFile
        else if |content| > 26_214_400 then FileTooLarge
        else if [0x4d, 0x5a] <= content || [0x7f, 0x45, 0x4c, 0x46] <= content then ExecutableContent
        else if [0x50, 0x4b, 0x03, 0x04] <= content then UnsupportedFormat
        else if contentType !in {"application/pdf", "image/png", "image/jpeg", "image/tiff"} then UnsupportedFormat
        else if !Genuine(content, contentType) then CorruptFile
        else EncryptedFile)
  {
    GenuineIff(content, contentType);
    if contentType == "application/pdf" { LockedIff(content); }
    if Genuine(content, contentType) {
      var m :| m in Signatures(contentType).value && m <= content;
      assert content[0] == m[0] && content[1] == m[1];
    }
  }

  /** What the antivirus transport did: raise, answer something that is no text, or answer a line. */
  datatype Transport = Raised | NotText | Answer(line: string)

  predicate IsPySpace(c: char) {
    var n := c as int;
    || 0x9 <= n <= 0xd || 0x1c <= n <= 0x20 || n == 0x85 || n == 0xa0 || n == 0x1680 || 0x2000 <= n <= 0x200a
    || n == 0x2028 || n == 0x2029 || n == 0x202f || n == 0x205f || n == 0x3000
  }

  /** The white space of Python, one by one. */
  lemma PySpaces(c: char)
    ensures IsPySpace(c) <==> c as int in {
      9, 10, 11, 12, 13, 28, 29, 30, 31, 32, 133, 160, 5760, 8192, 8193, 8194, 8195, 8196, 8197, 8198, 8199, 8200, 8201, 8202,
      8232, 8233, 8239, 8287, 12288}
  {
  }

  function StripLeft(s: string): string {
    if s != "" && IsPySpace(s[0]) then StripLeft(s[1..]) else s
  }

  function StripRight(s: string): string {
    if s != "" && IsPySpace(s[|s| - 1]) then StripRight(s[..|s| - 1]) else s
  }

  function Strip(s: string): string { StripRight(StripLeft(s)) }

  predicate EndsWith(s: string, suffix: string) {
    |suffix| <= |s| && s[|s| - |suffix|..] == suffix
  }

  /** The verdict of the scan stage; every doubt is a failure. */
  function VirusScan(transport: Transport): Result<string, Code> {
    match transport
    case Raised => Err(ScanUnavailable)
    case NotText => Err(ScanUnavailable)
    case Answer(line) =>
      if line == "" then Err(ScanUnavailable)
      else
        var normalized := Strip(line);
        if EndsWith(normalized, "FOUND") then Err(Malware)
        else if EndsWith(normalized, "ERROR") then Err(ScanUnavailable)
        else if normalized == "OK" || EndsWith(normalized, ": OK") || EndsWith(normalized, " OK") then Ok("SCAN_PASSED")
        else Err(ScanUnavailable)
  }

  lemma LastOf(s: string, suffix: string)
    requires suffix != "" && EndsWith(s, suffix)
    ensures s[|s| - 1] == suffix[|suffix| - 1]
  {
    assert s[|s| - 1] == s[|s| - |suffix|..][|suffix| - 1];
  }

  lemma ShorterSuffix(s: string, suffix: string)
    requires suffix != "" && EndsWith(s, suffix)
    ensures EndsWith(s, suffix[1..])
  {
    assert s[|s| - |suffix| + 1..] == s[|s| - |suffix|..][1..];
  }

  /** A verdict that ends in OK is neither FOUND nor ERROR. */
  lemma OkIsNoAlarm(s: string)
    requires s == "OK" || EndsWith(s, " OK")
    ensures !EndsWith(s, "FOUND") && !EndsWith(s, "ERROR")
  {
    if s != "OK" { LastOf(s, " OK"); }
    assert s[|s| - 1] == 'K';
    if EndsWith(s, "FOUND") { LastOf(s, "FOUND"); }
    if EndsWith(s, "ERROR") { LastOf(s, "ERROR"); }
  }

  lemma ColonOk(s: string)
    requires EndsWith(s, ": OK")
    ensures EndsWith(s, " OK")
  {
    ShorterSuffix(s, ": OK");
    assert ": OK"[1..] == " OK";
  }

  ghost predicate Spaces(s: string) { forall i :: 0 <= i < |s| ==> IsPySpace(s[i]) }

  /** `text` is what is left of `s` without the white space around it. */
  ghost predicate Surrounds(s: string, lead: string, text: string, trail: string) {
    && s == lead + text + trail && Spaces(lead) && Spaces(trail)
    && (text != "" ==> !IsPySpace(text[0]) && !IsPySpace(text[|text| - 1]))
  }

  lemma {:induction false} StripRightOf(text: string, trail: string)
    requires Spaces(trail) && (text != "" ==> !IsPySpace(text[|text| - 1]))
    ensures StripRight(text + trail) == text
  {
    if trail == "" {
      assert text + trail == text;
    } else {
      assert (text + trail)[..|text| + |trail| - 1] == text + trail[..|trail| - 1];
      StripRightOf(text, trail[..|trail| - 1]);
    }
  }

  /** `strip` removes the white space at both ends and nothing else. */
  lemma {:induction false} StripRemoves(s: string, lead: string, text: string, trail: string)
    requires Surrounds(s, lead, text, trail)
    ensures Strip(s) == text
    decreases |lead| + |trail|
  {
    if lead != "" {
      assert s[1..] == lead[1..] + text + trail;
      StripRemoves(s[1..], lead[1..], text, trail);
    } else if text == "" && trail != "" {
      assert s[1..] == lead + text + trail[1..];
      StripRemoves(s[1..], lead, text, trail[1..]);
    } else {
      assert s == text + trail;
      StripRightOf(text, trail);
    }
  }

  lemma LastWords(s: string)
    ensures EndsWith(s, " OK") <==> |s| >= 3 && s[|s| - 3..] == " OK"
    ensures EndsWith(s, "FOUND") <==> |s| >= 5 && s[|s| - 5..] == "FOUND"
  {
  }

  /** A scan passes exactly on an answer that is `OK`, alone or as the last word. One that ends in `FOUND` reports
      malware; every other outcome is a scan that could not be had. */
  lemma ScanFailsClosed(transport: Transport)
    ensures VirusScan(transport).Ok? <==>
      transport.Answer? && var n := Strip(transport.line); n == "OK" || (|n| >= 3 && n[|n| - 3..] == " OK")
    ensures VirusScan(transport).Ok? ==> VirusScan(transport).value == "SCAN_PASSED"
    ensures VirusScan(transport) == Err(Malware) <==>
      transport.Answer? && var n := Strip(transport.line); |n| >= 5 && n[|n| - 5..] == "FOUND"
    ensures VirusScan(transport).Err? ==> VirusScan(transport).error in {Malware, ScanUnavailable}
  {
    if transport.Answer? {
      var n := Strip(transport.line);
      LastWords(n);
      if EndsWith(n, ": OK") { ColonOk(n); }
      if n == "OK" || EndsWith(n, " OK") { OkIsNoAlarm(n); }
    }
  }

  function ArtifactKey(job: Payload, checksum: Checksum, name: Name): ObjectKey {
    ObjectKey(Derived, job.tenant, job.version, Processed(checksum, job.processorVersion, name))
  }

  /** The clean-zone key, granted only on a passed scan. */
  function PromoteClean(job: Payload, checksum: Checksum, scanStatus: string): Option<ObjectKey> {
    if scanStatus != "SCAN_PASSED" then None
    else Some(ObjectKey(Clean, job.tenant, job.version, Processed(checksum, job.processorVersion, job.source.name)))
  }

  /** One execution of the pipeline: what was loaded, what the antivirus said, and what was extracted, unless
      text extraction, OCR or the storing of the result raised. */
  datatype Execution = Execution(
    content: seq<Byte>, transport: Transport, fields: Option<seq<RawField>>, pageCount: Option<nat>, durationMs: nat)

  function Pipeline(job: Payload, x: Execution): Result<Completion, Code> {
    var checksum := Sha256Hex(x.content);
    if checksum != job.checksum then Err(CorruptFile)
    else match ValidateSignature(x.content, job.contentType)
      case Err(code) => Err(code)
      case Ok(_) =>
        match VirusScan(x.transport)
        case Err(code) => Err(code)
        case Ok(status) =>
          match PromoteClean(job, checksum, status)
          case None => Err(ScanUnavailable)
          case Some(clean) =>
            if x.fields.None? then Err(ExtractionRaised)
            else
              Ok(Completion(job.correlation, job.tenant, job.version, Completed, [clean],
                            Some(ArtifactKey(job, checksum, Literal("extracted.json"))), checksum,
                            job.processorVersion, x.durationMs, x.pageCount, Some(|x.fields.value|)))
  }

  /** The execution passed the signature check and the antivirus scan on content with this hash. */
  ghost predicate Cleared(x: Execution, checksum: Checksum, contentType: string) {
    && Sha256Hex(x.content) == checksum
    && ValidateSignature(x.content, contentType).Ok?
    && VirusScan(x.transport).Ok?
  }

  function CleanKey(job: Payload): ObjectKey {
    ObjectKey(Clean, job.tenant, job.version, Processed(job.checksum, job.processorVersion, job.source.name))
  }

  /** The pipeline completes exactly on cleared content from which something was extracted. Its result names the
      job's own identity, hash and version, one object of the clean zone and the extraction beside it; otherwise
      the first stage that fails decides the code. */
  lemma CompletesOnlyCleared(job: Payload, x: Execution)
    ensures Pipeline(job, x).Ok? <==> Cleared(x, job.checksum, job.contentType) && x.fields.Some?
    ensures Pipeline(job, x).Ok? ==>
      var name := job.source.name;
      Pipeline(job, x).value == Completion(
        job.correlation, job.tenant, job.version, Completed,
        [ObjectKey(Clean, job.tenant, job.version, Processed(job.checksum, job.processorVersion, name))],
        Some(ObjectKey(Derived, job.tenant, job.version, Processed(job.checksum, job.processorVersion, Literal("extracted.json")))),
        job.checksum, job.processorVersion, x.durationMs, x.pageCount, Some(|x.fields.value|))
    ensures Pipeline(job, x).Err? ==>
      Pipeline(job, x).error == (
        if Sha256Hex(x.content) != job.checksum then CorruptFile
        else if ValidateSignature(x.content, job.contentType).Err? then ValidateSignature(x.content, job.contentType).error
        else if VirusScan(x.transport).Err? then VirusScan(x.transport).error
        else ExtractionRaised)
  {
    ScanFailsClosed(x.transport);
  }

  /** Cleared content, spelled out: its hash is the job's, it begins like its type, and the scanner said so. */
  lemma ClearedMeans(x: Execution, checksum: Checksum, contentType: string)
    ensures Cleared(x, checksum, contentType) <==>
      && Sha256Hex(x.content) == checksum && |x.content| <= 26_214_400 && Genuine(x.content, contentType)
      && !(contentType == "application/pdf" && Locked(x.content))
      && x.transport.Answer? && var n := Strip(x.transport.line); n == "OK" || (|n| >= 3 && n[|n| - 3..] == " OK")
  {
    SignatureDecides(x.content, contentType);
    ScanFailsClosed(x.transport);
  }

  /** A suggestion of the optional analysis; a property of the wrong type is `None`. */
  datatype Suggestion = Suggestion(field: Option<string>, value: Option<string>, evidence: string)

  function AiField(s: Suggestion): RawField
    requires s.field.Some? && s.value.Some?
  {
    RawField(s.field.value, s.value, Some(Ai), None,
             Some(s.evidence[..if |s.evidence| < 500 then |s.evidence| else 500]), Some(0.5))
  }

  /** The usable suggestions, in order. */
  function AiFields(suggestions: seq<Suggestion>): (fields: seq<RawField>)
    ensures forall f :: f in fields ==> f.source == Some(Ai) && f.confidence == Some(0.5) && f.value.Some?
  {
    if suggestions == [] then []
    else
      var last := suggestions[|suggestions| - 1];
      AiFields(suggestions[..|suggestions| - 1]) + if last.field.Some? && last.value.Some? then [AiField(last)] else []
  }

  /** The queue handler. `promoted` and `written` are the objects it put into the private storage: the clean
      object as soon as the content was cleared, even if the extraction then raises. `local` is what the
      worker itself extracts, `ai` the optional analysis. */
  method Handle(job: Payload, content: seq<Byte>, transport: Transport, local: Option<seq<RawField>>,
                ai: Option<seq<Suggestion>>, pageCount: Option<nat>, durationMs: nat)
    returns (r: Result<Completion, Code>, fields: Option<seq<RawField>>, promoted: Option<ObjectKey>, written: Option<ObjectKey>)
    ensures r == Pipeline(job, Execution(content, transport, fields, pageCount, durationMs))
    ensures r.Ok? ==> local.Some? && fields == Some(local.value + (if ai.Some? then AiFields(ai.value) else []))
    ensures promoted == (if Cleared(Execution(content, transport, fields, pageCount, durationMs), job.checksum, job.contentType)
                         then Some(ObjectKey(Clean, job.tenant, job.version, Processed(job.checksum, job.processorVersion, job.source.name)))
                         else None)
    ensures r.Ok? <==> promoted.Some? && local.Some?
    ensures written == if r.Ok? then r.value.extractedDataRef else None
  {
    fields, promoted, written := None, None, None;
    var checksum := Sha256Hex(content);
    if checksum != job.checksum { return Err(CorruptFile), None, None, None; }
    var signature := ValidateSignature(content, job.contentType);
    if signature.Err? { return Err(signature.error), None, None, None; }
    var scan := VirusScan(transport);
    if scan.Err? { return Err(scan.error), None, None, None; }
    ScanFailsClosed(transport);
    promoted := PromoteClean(job, checksum, scan.value);

    if local.None? { return Err(ExtractionRaised), None, promoted, None; }
    var all := local.value;
    if ai.Some? {
      for i := 0 to |ai.value|
        invariant all == local.value + AiFields(ai.value[..i])
      {
        assert ai.value[..i + 1][..i] == ai.value[..i];
        var s := ai.value[i];
        if s.field.Some? && s.value.Some? {
          all := all + [AiField(s)];
        }
      }
      assert ai.value[..|ai.value|] == ai.value;
    }
    assert all == local.value + (if ai.Some? then AiFields(ai.value) else []);
    fields := Some(all);
    var extracted := ArtifactKey(job, checksum, Literal("extracted.json"));
    written := Some(extracted);
    r := Ok(Completion(job.correlation, job.tenant, job.version, Completed, [promoted.value], written, checksum,
                       job.processorVersion, durationMs, pageCount, Some(|all|)));
  }
}
