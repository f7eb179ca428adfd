/**
  The connectivity probe: how one run of the system `ping` command is turned
  into "reachable or not" (notify_ping.py, lines 31-55). Running the command,
  detecting its output encoding and decoding it are outside the model; what the
  command printed (already decoded) and the exit status it returned are inputs.
 */
module Prober {

  /** Only the distinction Windows / everything else matters to the script. */
  datatype Platform = Windows | Posix

  /** The phrase Windows' ping prints when the host is unreachable ("the given node is unreachable"). */
  const UnreachablePhrase := "Заданный узел недоступен"

  /** `pat` occurs in `text` starting at index `i`. */
  ghost predicate OccursAt(text: string, pat: string, i: int) {
    0 <= i && i + |pat| <= |text| && text[i..i + |pat|] == pat
  }

  /**
    Python's `str.find` from position `from`: the least index at or after
    `from` where `pat` occurs, or -1 when there is none.
   */
  function FindFrom(text: string, pat: string, from: nat): (r: int)
    requires from <= |text|
    ensures r == -1 || (from <= r && OccursAt(text, pat, r))
    ensures r == -1 ==> forall i :: from <= i ==> !OccursAt(text, pat, i)
    ensures r != -1 ==> forall i :: from <= i < r ==> !OccursAt(text, pat, i)
    decreases |text| - from
  {
    if from + |pat| > |text| then -1
    else if text[from..from + |pat|] == pat then from
    else FindFrom(text, pat, from + 1)
  }

  /** Python's `text.find(pat)`. */
  function Find(text: string, pat: string): (r: int)
    ensures r == -1 <==> forall i :: !OccursAt(text, pat, i)
    ensures r != -1 ==> OccursAt(text, pat, r) && forall i :: 0 <= i < r ==> !OccursAt(text, pat, i)
  {
    FindFrom(text, pat, 0)
  }

  /** Windows' ping reported the target as unreachable somewhere in its output. */
  ghost predicate ReportsUnreachable(output: string) {
    exists i :: OccursAt(output, UnreachablePhrase, i)
  }

  /**
    The probe's verdict. On Windows, `output` is the decoded text of a first
    run of the command and `status` the exit status of a second run, which the
    script makes only when the unreachable phrase is absent; elsewhere only
    `status` is consulted and `output` is ignored.
   */
  function Ping(p: Platform, output: string, status: int): (up: bool)
    ensures p == Posix ==> (up <==> status == 0)
    ensures p == Windows && ReportsUnreachable(output) ==> !up
    ensures p == Windows && !ReportsUnreachable(output) ==> (up <==> status == 0)
  {
    match p
    case Windows =>
      if Find(output, UnreachablePhrase) == -1 then status == 0 else false
    case Posix =>
      status == 0
  }

  /** A reachable verdict always rests on a successful exit status, on every platform. */
  lemma UpNeedsSuccess(p: Platform, output: string, status: int)
    ensures Ping(p, output, status) ==> status == 0
  {
  }

  /** The unreachable phrase overrides even a successful exit status on Windows. */
  lemma PhraseOverridesStatus(output: string, k: nat)
    requires k + |UnreachablePhrase| <= |output|
    requires output[k..k + |UnreachablePhrase|] == UnreachablePhrase
    ensures !Ping(Windows, output, 0)
  {
    assert OccursAt(output, UnreachablePhrase, k);
  }
}
