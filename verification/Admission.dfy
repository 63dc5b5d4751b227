/** Whether one more local run may start (packages/desk/src/admission.ts). */
module Admission {
  import opened Prelude

  const DEFAULT_MAX_LOCAL_RUNS := 4
  const MAX_LOCAL_RUNS_CEILING := 16

  datatype ActiveRun = ActiveRun(runId: string, folder: string)

  datatype Decision = Admitted(sameFolder: bool) | Refused(limit: nat)

  /** `None` stands for anything that is not a finite number. */
  function NormalizeMaxLocalRuns(value: Option<real>): (limit: nat)
    ensures 1 <= limit <= MAX_LOCAL_RUNS_CEILING
    ensures value.Some? && 1.0 <= value.value < MAX_LOCAL_RUNS_CEILING as real
      ==> limit as real <= value.value < limit as real + 1.0
    ensures value.None? || value.value < 1.0 ==> limit == DEFAULT_MAX_LOCAL_RUNS
    ensures value.Some? && value.value >= MAX_LOCAL_RUNS_CEILING as real ==> limit == MAX_LOCAL_RUNS_CEILING
  {
    if value.None? || value.value.Floor < 1 then DEFAULT_MAX_LOCAL_RUNS
    else if value.value.Floor < MAX_LOCAL_RUNS_CEILING then value.value.Floor
    else MAX_LOCAL_RUNS_CEILING
  }

  predicate IsSeparator(c: char) {
    c == '/' || c == '\\'
  }

  function TrimSeparators(folder: string): (r: string)
    ensures r <= folder && (r != "" ==> !IsSeparator(r[|r| - 1]))
    ensures forall k | |r| <= k < |folder| :: IsSeparator(folder[k])
  {
    if folder == "" || !IsSeparator(folder[|folder| - 1]) then folder else TrimSeparators(folder[..|folder| - 1])
  }

  function LowerChar(c: char): char {
    if 'A' <= c <= 'Z' then c + 32 as char else c
  }

  function Lower(text: string): (r: string)
    ensures |r| == |text|
  {
    seq(|text|, k requires 0 <= k < |text| => LowerChar(text[k]))
  }

  function FolderKey(folder: string, insensitive: bool): string {
    if insensitive then Lower(TrimSeparators(folder)) else TrimSeparators(folder)
  }

  /** A folder that is not known is the same as none, not even as itself. */
  predicate SameFolder(left: string, right: string, insensitive: bool) {
    left != "" && right != "" && FolderKey(left, insensitive) == FolderKey(right, insensitive)
  }

  /** Trailing separators do not tell folders apart. */
  lemma {:induction false} TrailingSeparator(folder: string, c: char, insensitive: bool)
    requires folder != "" && IsSeparator(c)
    ensures SameFolder(folder + [c], folder, insensitive)
  {
    assert (folder + [c])[..|folder|] == folder;
  }

  lemma {:induction false} TrimLower(folder: string)
    ensures TrimSeparators(Lower(folder)) == Lower(TrimSeparators(folder))
  {
    if folder != "" && IsSeparator(folder[|folder| - 1]) {
      assert Lower(folder)[..|folder| - 1] == Lower(folder[..|folder| - 1]);
      TrimLower(folder[..|folder| - 1]);
    }
  }

  /** Where case does not matter, any two spellings of a path are one folder. */
  lemma SpellingIgnored(left: string, right: string)
    requires Lower(left) == Lower(right) && left != ""
    ensures SameFolder(left, right, true)
  {
    TrimLower(left);
    TrimLower(right);
  }

  /** Two paths are one folder exactly if each is the same stem with separators behind it. */
  lemma SameFolderIff(left: string, right: string)
    requires left != "" && right != ""
    ensures SameFolder(left, right, false) <==> exists stem :: Behind(left, stem) && Behind(right, stem)
  {
    if SameFolder(left, right, false) {
      StemOf(left, TrimSeparators(left));
      StemOf(right, TrimSeparators(left));
      assert Behind(left, TrimSeparators(left)) && Behind(right, TrimSeparators(left));
    }
    if stem :| Behind(left, stem) && Behind(right, stem) {
      StemOf(left, stem);
      StemOf(right, stem);
    }
  }

  /** `folder` is `stem` and nothing but separators behind it; the stem does not end in one. */
  predicate Behind(folder: string, stem: string) {
    && stem <= folder && (stem != "" ==> !IsSeparator(stem[|stem| - 1]))
    && forall k | |stem| <= k < |folder| :: IsSeparator(folder[k])
  }

  lemma StemOf(folder: string, stem: string)
    ensures Behind(folder, stem) <==> TrimSeparators(folder) == stem
  {
    var trimmed := TrimSeparators(folder);
    if Behind(folder, stem) {
      NotLonger(folder, stem, trimmed);
      NotLonger(folder, trimmed, stem);
      assert stem == folder[..|stem|] && trimmed == folder[..|stem|];
    }
  }

  lemma NotLonger(folder: string, a: string, b: string)
    requires Behind(folder, a) && Behind(folder, b)
    ensures |a| <= |b|
  {
    assert a != "" ==> folder[|a| - 1] == a[|a| - 1];
  }

  /** The runs that are not this one. */
  function Others(active: seq<ActiveRun>, runId: string): (r: seq<ActiveRun>)
    ensures forall run :: run in r <==> run in active && run.runId != runId
    ensures |r| <= |active|
  {
    if active == [] then []
    else
      var last, front := active[|active| - 1], Others(active[..|active| - 1], runId);
      assert active == active[..|active| - 1] + [last];
      if last.runId != runId then front + [last] else front
  }

  /** A run is refused exactly when that many others hold a slot; the warning says that one of them shares the folder. */
  function AdmitLocalRun(runId: string, folder: string, active: seq<ActiveRun>, limit: Option<real>,
                         insensitive: bool): (r: Decision)
    ensures r.Refused? <==> |Others(active, runId)| >= NormalizeMaxLocalRuns(limit)
    ensures r.Admitted? ==>
      (r.sameFolder <==> exists run :: run in active && run.runId != runId && SameFolder(run.folder, folder, insensitive))
  {
    var others, max := Others(active, runId), NormalizeMaxLocalRuns(limit);
    if |others| >= max then Refused(max)
    else Admitted(exists run :: run in others && SameFolder(run.folder, folder, insensitive))
  }

  // ---- spelling ----

  /** The same letter, be it a capital or not. */
  predicate SameLetter(a: char, b: char) {
    || a == b
    || ('A' <= a <= 'Z' && b as int == a as int + 32)
    || ('A' <= b <= 'Z' && a as int == b as int + 32)
  }

  predicate SpelledAlike(left: string, right: string) {
    |left| == |right| && forall k | 0 <= k < |left| :: SameLetter(left[k], right[k])
  }

  lemma LowerAlike(left: string, right: string)
    ensures Lower(left) == Lower(right) <==> SpelledAlike(left, right)
  {
    hide LowerChar;
    if SpelledAlike(left, right) {
      forall k | 0 <= k < |left|
        ensures Lower(left)[k] == Lower(right)[k]
      {
        LowerLetter(left[k], right[k]);
      }
    }
    if Lower(left) == Lower(right) {
      forall k | 0 <= k < |left|
        ensures SameLetter(left[k], right[k])
      {
        assert Lower(left)[k] == Lower(right)[k];
        LowerLetter(left[k], right[k]);
      }
    }
  }

  lemma LowerLetter(a: char, b: char)
    ensures LowerChar(a) == LowerChar(b) <==> SameLetter(a, b)
  {
  }

  /** Where case does not matter, two paths are one folder exactly if each is a stem with separators behind it and the
      stems are spelled alike. */
  lemma SpellingIff(left: string, right: string)
    requires left != "" && right != ""
    ensures SameFolder(left, right, true)
      <==> exists a, b :: Behind(left, a) && Behind(right, b) && SpelledAlike(a, b)
  {
    var l, r := TrimSeparators(left), TrimSeparators(right);
    LowerAlike(l, r);
    StemOf(left, l);
    StemOf(right, r);
    if SameFolder(left, right, true) {
      assert Behind(left, l) && Behind(right, r) && SpelledAlike(l, r);
    }
    forall a, b | Behind(left, a) && Behind(right, b) && SpelledAlike(a, b)
      ensures a == l && b == r
    {
      StemOf(left, a);
      StemOf(right, b);
    }
  }
}
