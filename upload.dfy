/**
 * The upload endpoint `/api/process-file`: the filename rule, the order of
 * the checks that reject a request, and the name the PDF is offered under.
 */
module Upload {
  import opened Document
  import opened Diagram
  import opened Pipeline
  import opened Simplifier

  /** `ALLOWED_EXTENSIONS`. */
  const AllowedExtensions: set<string> := {"pbit"}
  /** The form field the file arrives in. */
  const FileField := "file"
  const NoFileProvided := "No file provided"
  const NoFileSelected := "No file selected"
  const OnlyPbitAllowed := "Only .pbit files are allowed"
  const FailedToProcess := "Failed to process .pbit file"
  /** What `str.replace` looks for in the filename, and what it puts instead. */
  const Suffix := ".pbit"
  const PdfSuffix := "_erd_final.pdf"

  // ---------------------------------------------------------------------------
  // The filename rule

  /** `str.lower` on the letters A to Z. */
  function LowerChar(c: char): char
  {
    if 'A' <= c <= 'Z' then (c as int + 32) as char else c
  }

  function Lower(s: string): string
  {
    seq(|s|, i requires 0 <= i < |s| => LowerChar(s[i]))
  }

  /** `s.rsplit('.', 1)[-1]`: the text after the last dot, or all of `s` when it has none. */
  function AfterLastDot(s: string): string
    decreases |s|
  {
    if |s| == 0 then ""
    else if s[|s| - 1] == '.' then ""
    else AfterLastDot(s[..|s| - 1]) + [s[|s| - 1]]
  }

  /** The part after the last dot is the longest end of the name without a dot. */
  lemma {:induction false} AfterLastDotIsLastPart(s: string)
    ensures var r := AfterLastDot(s);
      && |r| <= |s| && r == s[|s| - |r|..]
      && '.' !in r
      && (|r| < |s| ==> s[|s| - |r| - 1] == '.')
    decreases |s|
  {
    if |s| > 0 && s[|s| - 1] != '.' {
      var init := s[..|s| - 1];
      AfterLastDotIsLastPart(init);
      var q := AfterLastDot(init);
      assert s[|s| - |q| - 1..] == init[|init| - |q|..] + [s[|s| - 1]];
      if |q| < |init| {
        assert s[|s| - |q| - 2] == init[|init| - |q| - 1];
      }
    }
  }

  /**
   * `allowed_file`: there is a dot, and the text after the last one, lowered, is
   * an allowed extension; so an accepted name ends in a dot and four characters.
   */
  predicate AllowedFile(filename: string)
    ensures AllowedFile(filename) ==> |filename| >= 5 && filename[|filename| - 5] == '.'
  {
    AfterLastDotIsLastPart(filename);
    '.' in filename && Lower(AfterLastDot(filename)) in AllowedExtensions
  }

  /** A file is accepted exactly when its name ends in a dot and four characters spelling `pbit` in any case. */
  lemma AllowedFileIff(filename: string)
    ensures AllowedFile(filename) <==>
      |filename| >= 5 && filename[|filename| - 5] == '.' && Lower(filename[|filename| - 4..]) == "pbit"
  {
    var n := |filename|;
    var ext := AfterLastDot(filename);
    AfterLastDotIsLastPart(filename);
    if AllowedFile(filename) {
      assert |ext| == 4 by { assert |Lower(ext)| == |"pbit"|; }
      assert |ext| < n;
    }
    if n >= 5 && filename[n - 5] == '.' && Lower(filename[n - 4..]) == "pbit" {
      var tail := filename[n - 4..];
      assert '.' !in tail by {
        forall i | 0 <= i < 4 ensures tail[i] != '.' {
          assert LowerChar(tail[i]) == "pbit"[i];
        }
      }
      assert filename[n - 5] in filename;
      assert ext == tail;
    }
  }

  /** Names the rule accepts: any case, any dots before the extension. */
  lemma AcceptedExamples()
    ensures AllowedFile("a.b.pbit") && AllowedFile("X.PBIT") && AllowedFile(".pbit")
  {
    AllowedFileIff("a.b.pbit");
    assert "a.b.pbit"[4..] == "pbit";
    AllowedFileIff("X.PBIT");
    assert Lower("X.PBIT"[2..]) == "pbit";
    AllowedFileIff(".pbit");
    assert ".pbit"[1..] == "pbit";
  }

  /** Names the rule rejects: something after the extension, nothing after the dot, no dot. */
  lemma RejectedExamples()
    ensures !AllowedFile("r.pbit.zip") && !AllowedFile("file.") && !AllowedFile("pbit")
  {
    AllowedFileIff("r.pbit.zip");
    assert "r.pbit.zip"[5] != '.';
    AllowedFileIff("file.");
    AllowedFileIff("pbit");
  }

  // ---------------------------------------------------------------------------
  // The download name

  /** `s.replace(pat, rep)`: every occurrence, scanning left to right without overlap. */
  function Replace(s: string, pat: string, rep: string): string
    requires |pat| > 0
    decreases |s|
  {
    if |s| < |pat| then s
    else if s[..|pat|] == pat then rep + Replace(s[|pat|..], pat, rep)
    else [s[0]] + Replace(s[1..], pat, rep)
  }

  /** How many occurrences `Replace` rewrites. */
  function Count(s: string, pat: string): nat
    requires |pat| > 0
    decreases |s|
  {
    if |s| < |pat| then 0
    else if s[..|pat|] == pat then 1 + Count(s[|pat|..], pat)
    else Count(s[1..], pat)
  }

  /** `pat` starts at position `k` of `s`. */
  predicate OccursAt(s: string, pat: string, k: int)
  {
    0 <= k && k + |pat| <= |s| && s[k..k + |pat|] == pat
  }

  /** `pat` occurs somewhere in `s`. */
  ghost predicate Contains(s: string, pat: string)
  {
    exists k :: OccursAt(s, pat, k)
  }

  /** An occurrence in `s` past its first character is one in `s[1..]`, one place earlier. */
  lemma OccursShifted(s: string, pat: string, k: int)
    requires 1 <= k && |s| >= 1
    ensures OccursAt(s, pat, k) <==> OccursAt(s[1..], pat, k - 1)
  {
    if k + |pat| <= |s| {
      assert s[1..][k - 1..k - 1 + |pat|] == s[k..k + |pat|];
    }
  }

  /**
   * `file.filename.replace('.pbit', '_erd_final.pdf')`: each rewritten `.pbit`
   * makes the name 9 characters longer.
   */
  function DownloadName(filename: string): (name: string)
    ensures |name| == |filename| + 9 * Count(filename, Suffix)
  {
    ReplacedLength(filename);
    Replace(filename, Suffix, PdfSuffix)
  }

  lemma {:induction false} ReplacedLength(s: string)
    ensures |Replace(s, Suffix, PdfSuffix)| == |s| + 9 * Count(s, Suffix)
    decreases |s|
  {
    if |s| < 5 {
    } else if s[..5] == Suffix {
      ReplacedLength(s[5..]);
    } else {
      ReplacedLength(s[1..]);
    }
  }

  /** An occurrence anywhere is found by the scan. */
  lemma {:induction false} ContainsIsCounted(s: string, pat: string)
    requires |pat| > 0 && Contains(s, pat)
    ensures Count(s, pat) > 0
    decreases |s|
  {
    var k :| OccursAt(s, pat, k);
    if s[..|pat|] != pat {
      assert k > 0;
      OccursShifted(s, pat, k);
      ContainsIsCounted(s[1..], pat);
    }
  }

  /** Without an occurrence nothing is rewritten. */
  lemma {:induction false} AbsentLeavesUnchanged(s: string, pat: string, rep: string)
    requires |pat| > 0 && !Contains(s, pat)
    ensures Replace(s, pat, rep) == s
    decreases |s|
  {
    if |s| >= |pat| {
      assert !OccursAt(s, pat, 0);
      AbsentFromTail(s, pat);
      AbsentLeavesUnchanged(s[1..], pat, rep);
      assert s == [s[0]] + s[1..];
    }
  }

  /** The download name equals the upload name exactly when the latter has no `.pbit` in it. */
  lemma DownloadNameUnchangedIff(filename: string)
    ensures DownloadName(filename) == filename <==> !Contains(filename, Suffix)
  {
    if Contains(filename, Suffix) {
      ContainsIsCounted(filename, Suffix);
    } else {
      AbsentLeavesUnchanged(filename, Suffix, PdfSuffix);
    }
  }

  /** What does not occur in `s` does not occur in `s[1..]` either. */
  lemma AbsentFromTail(s: string, pat: string)
    requires |s| > 0 && !Contains(s, pat)
    ensures !Contains(s[1..], pat)
  {
    forall k | OccursAt(s[1..], pat, k) ensures false {
      OccursShifted(s, pat, k + 1);
    }
  }

  /** `.pbit` cannot start inside a non-empty stem that lacks it and is followed by `.pbit`. */
  lemma NoMatchBeforeSuffix(stem: string, rest: string)
    requires |stem| > 0 && !Contains(stem, Suffix)
    ensures (stem + Suffix + rest)[..5] != Suffix
  {
    var s := stem + Suffix + rest;
    if |stem| >= 5 {
      assert !OccursAt(stem, Suffix, 0);
      assert s[..5] == stem[0..5];
    } else {
      assert s[..5][|stem|] == '.' != Suffix[|stem|];
    }
  }

  /**
   * The scan rewrites the first `.pbit` and carries on after it: a name
   * `stem.pbit<rest>` whose stem has no `.pbit` of its own is offered as
   * `stem_erd_final.pdf` followed by the download name of the rest.
   */
  lemma {:induction false} DownloadNameSplits(stem: string, rest: string)
    requires !Contains(stem, Suffix)
    ensures DownloadName(stem + Suffix + rest) == stem + PdfSuffix + DownloadName(rest)
    decreases |stem|
  {
    var s := stem + Suffix + rest;
    if |stem| == 0 {
      assert s[..5] == Suffix && s[5..] == rest;
    } else {
      NoMatchBeforeSuffix(stem, rest);
      AbsentFromTail(stem, Suffix);
      DownloadNameSplits(stem[1..], rest);
      assert s[1..] == stem[1..] + Suffix + rest;
      assert stem + PdfSuffix + DownloadName(rest) == [stem[0]] + (stem[1..] + PdfSuffix + DownloadName(rest));
    }
  }

  /** Every `.pbit` is rewritten, not only the one that ends the name. */
  lemma EveryOccurrenceRewritten()
    ensures DownloadName("a" + Suffix + Suffix) == "a" + PdfSuffix + PdfSuffix
  {
    DownloadNameSplits("a", Suffix);
    assert DownloadName(Suffix) == PdfSuffix by {
      DownloadNameSplits("", "");
      assert "" + Suffix + "" == Suffix;
    }
  }

  /** An upper-case extension passes the filename rule but is not rewritten. */
  lemma UpperCaseNotRewritten()
    ensures AllowedFile("X.PBIT") && DownloadName("X.PBIT") == "X.PBIT"
  {
    AcceptedExamples();
    assert !Contains("X.PBIT", Suffix);
    AbsentLeavesUnchanged("X.PBIT", Suffix, PdfSuffix);
  }

  // ---------------------------------------------------------------------------
  // The endpoint

  /** An entry of `request.files`; its bytes are already classified by the archive reader. */
  datatype UploadedFile = UploadedFile(filename: string, contents: Archive)

  datatype Request = Request(files: map<string, UploadedFile>)

  datatype Response =
    | ErrorReply(status: nat, error: string)          // `jsonify({'error': error}), status`
    | FailureReply(status: nat, reason: Reason)       // `Processing failed: <exception>` with status 500
    | Attachment(downloadName: string, story: seq<Block>, drawing: seq<DrawCmd>)  // `send_file(..., as_attachment=True)`

  /**
   * `process_file`: the three request checks in order, then the outcome of
   * `process_pbit`. A request that is not accepted is answered 400, and a PDF
   * goes out only for an accepted one, under the rewritten name.
   */
  function ProcessFile(req: Request): (resp: Response)
    ensures !Accepted(req) ==> resp.ErrorReply? && resp.status == 400
    ensures resp.Attachment? ==> Accepted(req) && resp.downloadName == DownloadName(req.files[FileField].filename)
  {
    if FileField !in req.files then ErrorReply(400, NoFileProvided)
    else
      var file := req.files[FileField];
      if file.filename == "" then ErrorReply(400, NoFileSelected)
      else if !AllowedFile(file.filename) then ErrorReply(400, OnlyPbitAllowed)
      else
        match PbitSpec(file.contents)
        case NoDocument => ErrorReply(500, FailedToProcess)
        case Failed(reason) => FailureReply(500, reason)
        case Pdf(story, drawing) => Attachment(DownloadName(file.filename), story, drawing)
  }

  /** The request carries a file whose name passes the filename rule. */
  predicate Accepted(req: Request)
  {
    FileField in req.files && AllowedFile(req.files[FileField].filename)
  }

  /**
   * A request is turned away with 400 exactly when it is not accepted, and the
   * message names the first check that fails; an empty name is reported as not
   * selected although it would fail the extension check too.
   */
  lemma RejectionOrder(req: Request)
    ensures (ProcessFile(req).ErrorReply? && ProcessFile(req).status == 400) <==> !Accepted(req)
    ensures FileField !in req.files ==> ProcessFile(req).error == NoFileProvided
    ensures FileField in req.files && req.files[FileField].filename == "" ==> ProcessFile(req).error == NoFileSelected
    ensures FileField in req.files && req.files[FileField].filename != "" && !Accepted(req) ==>
      ProcessFile(req).error == OnlyPbitAllowed
  {
  }

  /** A rejected request is answered without looking at the file's contents. */
  lemma RejectionIgnoresContents(req: Request, other: Request)
    requires FileField in req.files <==> FileField in other.files
    requires FileField in req.files ==> req.files[FileField].filename == other.files[FileField].filename
    requires !Accepted(req)
    ensures ProcessFile(req) == ProcessFile(other)
  {
    assert !Accepted(other);
  }

  /**
   * A PDF is sent exactly when the file is accepted and its template holds a
   * schema with at least one table, every table named, no name repeated, and
   * every relationship naming both tables; it is offered under the rewritten
   * name, holding the document `process_pbit` renders.
   */
  lemma AttachmentIff(req: Request)
    ensures ProcessFile(req).Attachment? <==>
      Accepted(req) && req.files[FileField].contents.WithSchema? &&
      var s := req.files[FileField].contents.schema;
      |RawTables(s)| > 0 && !UnnamedTable(s) && !RepeatedName(s) && !MissingEndpoint(s)
    ensures ProcessFile(req).Attachment? ==>
      var file := req.files[FileField];
      && ProcessFile(req).downloadName == DownloadName(file.filename)
      && PbitSpec(file.contents) == Pdf(ProcessFile(req).story, ProcessFile(req).drawing)
  {
    if FileField in req.files {
      PbitOutcomes(req.files[FileField].contents);
    }
  }

  /** Processing that raises answers 500 with the reason; an archive without the schema entry answers 500 with the fixed message. */
  lemma ProcessingFailures(req: Request)
    requires Accepted(req)
    ensures req.files[FileField].contents == MissingSchema ==> ProcessFile(req) == ErrorReply(500, FailedToProcess)
    ensures req.files[FileField].contents == NotAnArchive ==> ProcessFile(req) == FailureReply(500, BadArchive)
    ensures PbitSpec(req.files[FileField].contents).Failed? ==>
      ProcessFile(req) == FailureReply(500, PbitSpec(req.files[FileField].contents).reason)
  {
  }
}
