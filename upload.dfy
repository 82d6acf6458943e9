/** The upload filename check `allowed_file` and its allow-list. */
module Upload {
  import opened Strings

  /** The four accepted image extensions, in lower case. */
  const ALLOWED_EXTENSIONS: set<string> := {"png", "jpg", "jpeg", "gif"}

  /** `name.rsplit('.', 1)[1]`: the text after the last dot of `name`. The
      result holds no dot, is preceded in `name` by a dot, and is the whole
      rest of `name`. */
  function AfterLastDot(name: string): (ext: string)
    requires '.' in name
    ensures '.' !in ext
    ensures |ext| < |name| && name[|name| - |ext| - 1] == '.'
    ensures ext == name[|name| - |ext|..]
    decreases |name|
  {
    var last := name[|name| - 1];
    if last == '.' then
      []
    else
      var stem := name[..|name| - 1];
      assert name == stem + [last];
      AfterLastDot(stem) + [last]
  }

  /** Whatever dot of `name` has no dot after it, the text after it is what
      `AfterLastDot` returns: the last dot is unique. */
  lemma AfterLastDotAt(name: string, i: nat)
    requires i < |name| && name[i] == '.' && '.' !in name[i + 1..]
    ensures '.' in name
    ensures AfterLastDot(name) == name[i + 1..]
  {
  }

  /** `allowed_file(filename)`: the name holds a dot and the lower-cased
      text after its last dot is an allowed extension. An accepted name
      therefore ends in a suffix of three or four characters after its last
      dot, and never in a dot. */
  predicate AllowedFile(filename: string)
    ensures AllowedFile(filename) ==>
              '.' in filename && 3 <= |AfterLastDot(filename)| <= 4 && filename[|filename| - 1] != '.'
  {
    '.' in filename && Lower(AfterLastDot(filename)) in ALLOWED_EXTENSIONS
  }

  /** Reference reading of the rule, without `AfterLastDot`: some dot of the
      name has no dot after it and the lower-cased text after that dot is
      allowed. */
  ghost predicate HasAllowedExtension(filename: string) {
    exists i :: 0 <= i < |filename| && filename[i] == '.' && '.' !in filename[i + 1..]
                && Lower(filename[i + 1..]) in ALLOWED_EXTENSIONS
  }

  lemma AllowedFileIff(filename: string)
    ensures AllowedFile(filename) <==> HasAllowedExtension(filename)
  {
  }

  /** Only the final suffix decides: for any stem, `stem.ext` with a
      dot-free `ext` is accepted exactly when `ext`, lower-cased, is allowed.
      So `a.png.txt` and a name ending in a dot are rejected. */
  lemma OnlyFinalSuffixCounts(stem: string, ext: string)
    requires '.' !in ext
    ensures AllowedFile(stem + "." + ext) <==> Lower(ext) in ALLOWED_EXTENSIONS
  {
    var name := stem + "." + ext;
    assert name[|stem| + 1..] == ext;
    AfterLastDotAt(name, |stem|);
  }

  /** A name without a dot is never accepted. */
  lemma NoDotRejected(filename: string)
    requires '.' !in filename
    ensures !AllowedFile(filename)
  {
  }

  /** Lower-casing commutes with taking the text after the last dot. */
  lemma AfterLastDotLower(name: string)
    requires '.' in name
    ensures '.' in Lower(name)
    ensures AfterLastDot(Lower(name)) == Lower(AfterLastDot(name))
  {
    var ext := AfterLastDot(name);
    var i := |name| - |ext| - 1;
    var low := Lower(name);
    LowerCharDot(name[i]);
    LowerOfSlice(name, i + 1);
    forall k | 0 <= k < |ext| ensures Lower(ext)[k] != '.' {
      LowerCharDot(ext[k]);
    }
    AfterLastDotAt(low, i);
  }

  /** The check ignores letter case: two names that agree once lower-cased
      are accepted or rejected together; in particular a name is accepted
      exactly when its lower-cased form is. */
  lemma AllowedFileIgnoresCase(a: string, b: string)
    requires Lower(a) == Lower(b)
    ensures AllowedFile(a) <==> AllowedFile(b)
  {
    forall name | '.' in name
      ensures Lower(AfterLastDot(name)) == AfterLastDot(Lower(name))
    {
      AfterLastDotLower(name);
    }
    DotInLower(a);
    DotInLower(b);
  }

  lemma DotInLower(name: string)
    ensures '.' in name <==> '.' in Lower(name)
  {
  }

  /** A name made of a stem, a dot and a three- or four-letter suffix is
      judged on the lower-cased suffix alone; spelled out per character so
      that the examples below need no unfolding of `Lower`. */
  lemma SuffixVerdict(stem: string, ext: string, low: string)
    requires '.' !in ext && |ext| == |low|
    requires forall k :: 0 <= k < |ext| ==> LowerChar(ext[k]) == low[k]
    ensures AllowedFile(stem + "." + ext) <==> low in ALLOWED_EXTENSIONS
  {
    OnlyFinalSuffixCounts(stem, ext);
    assert Lower(ext) == low;
  }

  /** Whatever the stem, a name ending in a dot and one of the four allowed
      extensions, as the repository's own tests spell them, is accepted. */
  lemma AllowedSuffixAccepted(stem: string, ext: string)
    requires ext in ALLOWED_EXTENSIONS
    ensures AllowedFile(stem + "." + ext)
  {
    if ext == "png" {
      SuffixVerdict(stem, "png", "png");
    } else if ext == "jpg" {
      SuffixVerdict(stem, "jpg", "jpg");
    } else if ext == "jpeg" {
      SuffixVerdict(stem, "jpeg", "jpeg");
    } else {
      SuffixVerdict(stem, "gif", "gif");
    }
  }

  /** Upper-case suffixes are accepted too: `TEST.JPG` is. */
  lemma UpperCaseAccepted(stem: string)
    ensures AllowedFile(stem + "." + "JPG")
  {
    SuffixVerdict(stem, "JPG", "jpg");
  }

  /** Whatever the stem, the suffixes the repository's own tests reject are
      rejected. With the stem `a.png` this says `a.png.txt` is rejected. */
  lemma RejectedSuffixes(stem: string)
    ensures !AllowedFile(stem + "." + "txt") && !AllowedFile(stem + "." + "pdf")
    ensures !AllowedFile(stem + "." + "exe")
  {
    SuffixVerdict(stem, "txt", "txt");
    SuffixVerdict(stem, "pdf", "pdf");
    SuffixVerdict(stem, "exe", "exe");
  }

  /** A name ending in a dot has an empty suffix and is rejected. */
  lemma TrailingDotRejected(stem: string)
    ensures !AllowedFile(stem + ".")
  {
    assert stem + "." == stem + "." + "";
    OnlyFinalSuffixCounts(stem, "");
  }

  /** A name without an extension and the empty name are rejected. */
  lemma RejectedShapeExamples()
    ensures !AllowedFile("test") && !AllowedFile("")
  {
  }
}
