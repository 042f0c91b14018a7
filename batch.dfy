/**
 * The entry point of test.py (test.py:219-224): NUM_SESSIONS sessions, one
 * after the other, all appending to the same output file.
 *
 * run_session catches every exception of its try block, so a session ends the
 * loop only when set_page_load_timeout raised before that block (`Escaped`):
 * nothing catches that exception and the program stops there.
 */
module Batch {
  import opened Browser
  import opened Sessions
  import SessionFacts
  import Output
  import Seqs

  /** NUM_SESSIONS (test.py:220). */
  const NumSessions: nat := 50

  /** What each session would end with, run on its own script. */
  function Outcomes(scripts: seq<Script>): (r: seq<SessionResult>)
    ensures |r| == |scripts|
  {
    if scripts == [] then [] else Outcomes(scripts[..|scripts| - 1]) + [Session(scripts[|scripts| - 1]).result]
  }

  /** Session k's outcome is that of its own script. */
  lemma {:induction false} OutcomeOf(scripts: seq<Script>, k: nat)
    requires k < |scripts|
    ensures Outcomes(scripts)[k] == Session(scripts[k]).result
  {
    if k < |scripts| - 1 {
      OutcomeOf(scripts[..|scripts| - 1], k);
    }
  }

  /** The results of the sessions that actually run, given what each would end
      with: they run in turn, and none runs after one whose exception escaped. */
  function Ran(outcomes: seq<SessionResult>): (r: seq<SessionResult>)
    ensures r <= outcomes
    ensures |r| < |outcomes| ==> r != [] && r[|r| - 1].Escaped?
  {
    if outcomes == [] then []
    else
      var before := Ran(outcomes[..|outcomes| - 1]);
      if before != [] && before[|before| - 1].Escaped? then before
      else
        assert outcomes == outcomes[..|outcomes| - 1] + [outcomes[|outcomes| - 1]];
        before + [outcomes[|outcomes| - 1]]
  }

  /** What a run of sessions appends to the output file, in order. */
  function AllAppended(results: seq<SessionResult>): string
  {
    if results == [] then [] else AllAppended(results[..|results| - 1]) + Appended(results[|results| - 1])
  }

  /** The codes a run of sessions saved, in order. */
  function SavedCodes(results: seq<SessionResult>): seq<string>
  {
    if results == [] then []
    else
      var last := results[|results| - 1];
      SavedCodes(results[..|results| - 1]) + (if last.Saved? then [last.code] else [])
  }

  /** The `__main__` block (test.py:219-224): one session per script, in order,
      until one's exception escapes. The pauses between sessions are not
      modelled. */
  method RunAll(scripts: seq<Script>, file: Output.CouponFile) returns (results: seq<SessionResult>)
    requires |scripts| == NumSessions
    modifies file
    ensures results == Ran(Outcomes(scripts))
    ensures file.text == old(file.text) + AllAppended(results)
  {
    results := [];
    for i := 0 to NumSessions
      invariant results == Ran(Outcomes(scripts)[..i])
      invariant results == [] || !results[|results| - 1].Escaped?
      invariant file.text == old(file.text) + AllAppended(results)
    {
      var result := RunOne(scripts, i, file, results);
      Seqs.Assoc(old(file.text), AllAppended(results), Appended(result));
      results := results + [result];
      if result.Escaped? {
        return;
      }
    }
    assert Outcomes(scripts)[..NumSessions] == Outcomes(scripts);
  }

  /** `run_session(i + 1)` inside the loop (test.py:223), after sessions that let
      nothing escape: its result is the next one of the run, and when its
      exception escapes it is the last one. */
  method RunOne(scripts: seq<Script>, i: nat, file: Output.CouponFile, ghost results: seq<SessionResult>)
    returns (result: SessionResult)
    requires i < |scripts|
    requires results == Ran(Outcomes(scripts)[..i])
    requires results == [] || !results[|results| - 1].Escaped?
    modifies file
    ensures results + [result] == Ran(Outcomes(scripts)[..i + 1])
    ensures result.Escaped? ==> results + [result] == Ran(Outcomes(scripts))
    ensures AllAppended(results + [result]) == AllAppended(results) + Appended(result)
    ensures file.text == old(file.text) + Appended(result)
  {
    var driver;
    result, driver := RunSession(scripts[i], file);
    OutcomeOf(scripts, i);
    RanNext(Outcomes(scripts), i);
    AllAppendedNext(results, result);
    if result.Escaped? {
      EscapeEndsRun(Outcomes(scripts), i + 1);
      assert Outcomes(scripts)[..|scripts|] == Outcomes(scripts);
    }
  }

  /** One more session runs after sessions that let nothing escape. */
  lemma RanNext(outcomes: seq<SessionResult>, i: nat)
    requires i < |outcomes|
    requires var before := Ran(outcomes[..i]); before == [] || !before[|before| - 1].Escaped?
    ensures Ran(outcomes[..i + 1]) == Ran(outcomes[..i]) + [outcomes[i]]
  {
    assert outcomes[..i + 1][..i] == outcomes[..i];
  }

  lemma AllAppendedNext(results: seq<SessionResult>, result: SessionResult)
    ensures AllAppended(results + [result]) == AllAppended(results) + Appended(result)
  {
    assert (results + [result])[..|results|] == results;
  }

  /** Once a session's exception has escaped, no later session runs. */
  lemma {:induction false} EscapeEndsRun(outcomes: seq<SessionResult>, k: nat)
    requires 0 < k <= |outcomes|
    requires var before := Ran(outcomes[..k]); before != [] && before[|before| - 1].Escaped?
    ensures Ran(outcomes) == Ran(outcomes[..k])
    decreases |outcomes| - k
  {
    if k < |outcomes| {
      assert outcomes[..|outcomes| - 1][..k] == outcomes[..k];
      EscapeEndsRun(outcomes[..|outcomes| - 1], k);
    } else {
      assert outcomes[..k] == outcomes;
    }
  }

  /** Every session that runs but the last lets nothing escape. */
  lemma {:induction false} RanStopsAtEscape(outcomes: seq<SessionResult>)
    ensures forall k :: 0 <= k < |Ran(outcomes)| - 1 ==> !Ran(outcomes)[k].Escaped?
  {
    if outcomes != [] {
      var prefix := outcomes[..|outcomes| - 1];
      RanStopsAtEscape(prefix);
    }
  }

  /** Session k of a run ends as it would on its own. */
  lemma SessionsRunAlone(scripts: seq<Script>)
    ensures forall k :: 0 <= k < |Ran(Outcomes(scripts))| ==> Ran(Outcomes(scripts))[k] == Session(scripts[k]).result
  {
    forall k | 0 <= k < |Ran(Outcomes(scripts))| ensures Ran(Outcomes(scripts))[k] == Session(scripts[k]).result {
      OutcomeOf(scripts, k);
    }
  }

  /** A session that does not let an exception escape is followed by the next one. */
  lemma {:induction false} RunContinues(outcomes: seq<SessionResult>, k: nat)
    requires k < |outcomes| && forall j :: 0 <= j < k ==> !outcomes[j].Escaped?
    ensures |Ran(outcomes)| > k
  {
    RanStopsAtEscape(outcomes);
  }

  /** Whether no saved code among `results` holds a newline. */
  predicate OneLineCodes(results: seq<SessionResult>)
  {
    forall k :: 0 <= k < |results| && results[k].Saved? ==> '\n' !in results[k].code
  }

  /** A file that is empty or ends in a newline still is after a run of sessions. */
  lemma {:induction false} EndsInNewline(results: seq<SessionResult>, text: string)
    requires text == [] || text[|text| - 1] == '\n'
    ensures var after := text + AllAppended(results); after == [] || after[|after| - 1] == '\n'
  {
    if results != [] {
      var before := results[..|results| - 1];
      EndsInNewline(before, text);
      Seqs.Assoc(text, AllAppended(before), Appended(results[|results| - 1]));
    }
  }

  /** A file made of whole lines gains exactly the saved codes, one line each and
      in order, provided no saved code holds a newline. */
  lemma {:induction false} AppendsLines(results: seq<SessionResult>, text: string)
    requires text == [] || text[|text| - 1] == '\n'
    requires OneLineCodes(results)
    ensures Output.Lines(text + AllAppended(results)) == Output.Lines(text) + SavedCodes(results)
  {
    if results != [] {
      var before := results[..|results| - 1];
      var last := results[|results| - 1];
      assert OneLineCodes(before);
      AppendsLines(before, text);
      EndsInNewline(before, text);
      var middle := text + AllAppended(before);
      Seqs.Assoc(text, AllAppended(before), Appended(last));
      AppendsResult(middle, last);
      Seqs.Assoc(Output.Lines(text), SavedCodes(before), if last.Saved? then [last.code] else []);
    } else {
      assert text + [] == text;
    }
  }

  /** One session's append, read back as lines. */
  lemma AppendsResult(text: string, result: SessionResult)
    requires text == [] || text[|text| - 1] == '\n'
    requires result.Saved? ==> '\n' !in result.code
    ensures Output.Lines(text + Appended(result)) == Output.Lines(text) + (if result.Saved? then [result.code] else [])
  {
    if result.Saved? {
      Output.AppendOneLine(text, result.code);
      Seqs.Assoc(text, result.code, "\n");
    } else {
      assert text + [] == text;
    }
  }

  /** The whole run: an output file made of whole lines gains one line per saved
      code, in the order of the sessions. */
  lemma RunAppendsSavedCodes(scripts: seq<Script>, text: string)
    requires text == [] || text[|text| - 1] == '\n'
    ensures Output.Lines(text + AllAppended(Ran(Outcomes(scripts)))) == Output.Lines(text) + SavedCodes(Ran(Outcomes(scripts)))
  {
    var results := Ran(Outcomes(scripts));
    forall k | 0 <= k < |results| && results[k].Saved? ensures '\n' !in results[k].code {
      OutcomeOf(scripts, k);
      SessionFacts.SavedCodeIsOneLine(scripts[k]);
    }
    AppendsLines(results, text);
  }
}
