/**
 * The two schema loaders: `executeSQLCommands` of init-dashboard-db.js,
 * which splits a script at every `;`, keeps the pieces that are not blank
 * and runs them trimmed, in order, stopping at the first failure; and the
 * loop of init-applicants-schedule.js, which trims the pieces, drops the
 * empty ones and attempts every statement, skipping "already exists"
 * errors and logging the others. The driver's answer to a statement is a
 * function of how many statements ran before it and of its text.
 */
module SqlScript {
  import opened Common
  import opened Text
  import SafeQuery

  /** The driver's answer to `db.execute(statement)`. */
  datatype Exec = Done | Failed(code: string, message: string)

  // ---------------------------------------------------------------------
  // Splitting

  /** `.filter(cmd => cmd.trim())`: the pieces whose trimmed text is not empty, as written. */
  function NonBlank(pieces: seq<string>): (kept: seq<string>)
    ensures forall k :: 0 <= k < |kept| ==> Trim(kept[k]) != ""
  {
    if pieces == [] then []
    else if Trim(pieces[0]) != "" then [pieces[0]] + NonBlank(pieces[1..])
    else NonBlank(pieces[1..])
  }

  /** Exactly the non-blank pieces are kept. */
  lemma {:induction false} NonBlankMembers(pieces: seq<string>)
    ensures forall p :: p in NonBlank(pieces) <==> p in pieces && Trim(p) != ""
  {
    if pieces != [] {
      NonBlankMembers(pieces[1..]);
      assert pieces == [pieces[0]] + pieces[1..];
    }
  }

  /** The filter keeps the pieces in the order of the script. */
  lemma {:induction false} NonBlankKeepsOrder(pieces: seq<string>)
    ensures SafeQuery.Subsequence(NonBlank(pieces), pieces)
  {
    if pieces != [] {
      var rest := NonBlank(pieces[1..]);
      NonBlankKeepsOrder(pieces[1..]);
      if Trim(pieces[0]) != "" {
        assert ([pieces[0]] + rest)[1..] == rest;
      } else {
        SafeQuery.SubsequenceCons(rest, pieces[1..], pieces[0]);
        assert [pieces[0]] + pieces[1..] == pieces;
      }
    }
  }

  /** `.map(stmt => stmt.trim())`. */
  function TrimAll(pieces: seq<string>): (trimmed: seq<string>)
    ensures |trimmed| == |pieces|
    ensures forall k :: 0 <= k < |pieces| ==> trimmed[k] == Trim(pieces[k])
  {
    seq(|pieces|, k requires 0 <= k < |pieces| => Trim(pieces[k]))
  }

  /** `.filter(stmt => stmt.length > 0)`. */
  function NonEmpty(pieces: seq<string>): (kept: seq<string>)
    ensures forall p :: p in kept <==> p in pieces && p != ""
  {
    if pieces == [] then []
    else if pieces[0] != "" then [pieces[0]] + NonEmpty(pieces[1..])
    else NonEmpty(pieces[1..])
  }

  /** The commands of init-dashboard-db.js: non-blank pieces, untrimmed until they run. */
  function Commands(script: string): seq<string>
  {
    NonBlank(Split(script, ';'))
  }

  /** The statements of init-applicants-schedule.js: trimmed pieces, empty ones dropped. */
  function Statements(script: string): seq<string>
  {
    NonEmpty(TrimAll(Split(script, ';')))
  }

  /** Filtering blank pieces then trimming is trimming then dropping empty ones. */
  lemma {:induction false} FilterThenTrim(pieces: seq<string>)
    ensures TrimAll(NonBlank(pieces)) == NonEmpty(TrimAll(pieces))
  {
    if pieces != [] {
      FilterThenTrim(pieces[1..]);
      assert TrimAll(pieces)[1..] == TrimAll(pieces[1..]);
      if Trim(pieces[0]) != "" {
        assert TrimAll([pieces[0]] + NonBlank(pieces[1..])) == [Trim(pieces[0])] + TrimAll(NonBlank(pieces[1..]));
      }
    }
  }

  /** Both loaders run the same statement texts for the same script. */
  lemma PipelinesAgree(script: string)
    ensures TrimAll(Commands(script)) == Statements(script)
  {
    FilterThenTrim(Split(script, ';'));
  }

  /** No statement is empty, none starts or ends with whitespace, and none contains a `;`. */
  lemma StatementsAreClean(script: string)
    ensures forall st :: st in Statements(script) ==>
      st != "" && !IsSpace(st[0]) && !IsSpace(st[|st| - 1]) && ';' !in st
  {
    var pieces := Split(script, ';');
    SplitPiecesFree(script, ';');
    forall st | st in Statements(script)
      ensures st != "" && !IsSpace(st[0]) && !IsSpace(st[|st| - 1]) && ';' !in st
    {
      assert st in TrimAll(pieces) && st != "";
      var k :| 0 <= k < |pieces| && TrimAll(pieces)[k] == st;
      TrimmedPieceClean(pieces[k]);
    }
  }

  /** Trimming a piece free of `;` leaves text free of `;` with no whitespace at either end. */
  lemma TrimmedPieceClean(piece: string)
    requires ';' !in piece
    ensures Trim(piece) != "" ==> !IsSpace(Trim(piece)[0]) && !IsSpace(Trim(piece)[|Trim(piece)| - 1])
    ensures ';' !in Trim(piece)
  {
    TrimShape(piece);
    var i, j :| 0 <= i <= j <= |piece| && Trim(piece) == piece[i..j];
  }

  /** Every command, once trimmed, is one of the statements: the filter keeps no blank piece. */
  lemma {:induction false} CommandsTrimToStatements(script: string)
    ensures |Commands(script)| == |Statements(script)|
    ensures forall k :: 0 <= k < |Commands(script)| ==> Trim(Commands(script)[k]) == Statements(script)[k] != ""
  {
    PipelinesAgree(script);
  }

  // ---------------------------------------------------------------------
  // executeSQLCommands: stop at the first failure

  /** The driver accepted the first n statements. */
  predicate AcceptedBefore(driver: (nat, string) -> Exec, stmts: seq<string>, n: nat)
    requires n <= |stmts|
  {
    forall k :: 0 <= k < n ==> driver(k, stmts[k]).Done?
  }

  /**
   * Runs the commands in order, each trimmed. Returns the statements sent
   * and the error rethrown, if any: on success every command ran; on a
   * failure the failing command was the last one sent, and every one before
   * it succeeded. A script with no commands sends nothing.
   */
  method ExecuteSqlCommands(sqlCommands: string, driver: (nat, string) -> Exec)
    returns (executed: seq<string>, error: Option<Exec>)
    ensures var stmts := TrimAll(Commands(sqlCommands));
      |executed| <= |stmts| && executed == stmts[..|executed|]
    ensures error.None? <==> AcceptedBefore(driver, TrimAll(Commands(sqlCommands)), |Commands(sqlCommands)|)
    ensures error.None? ==> executed == TrimAll(Commands(sqlCommands))
    ensures error.Some? ==>
      && |executed| >= 1
      && AcceptedBefore(driver, executed, |executed| - 1)
      && error == Some(driver(|executed| - 1, executed[|executed| - 1]))
      && error.value.Failed?
  {
    var commands := Commands(sqlCommands);
    ghost var stmts := TrimAll(commands);
    executed, error := [], None;
    if |commands| == 0 {
      return;
    }
    for i := 0 to |commands|
      invariant executed == stmts[..i]
      invariant AcceptedBefore(driver, stmts, i)
    {
      var trimmedCommand := Trim(commands[i]);
      if trimmedCommand != "" {
        var outcome := driver(i, trimmedCommand);
        executed := executed + [trimmedCommand];
        assert executed == stmts[..i + 1];
        if outcome.Failed? {
          error := Some(outcome);
          assert executed[i] == trimmedCommand;
          assert AcceptedBefore(driver, executed, i) by {
            forall k | 0 <= k < i ensures driver(k, executed[k]).Done? {
              assert executed[k] == stmts[k];
            }
          }
          return;
        }
      }
    }
    assert stmts[..|commands|] == stmts;
  }

  // ---------------------------------------------------------------------
  // init-applicants-schedule.js: attempt every statement

  /** What the loop does with an answer. */
  datatype Step = Executed | Skipped | Logged(message: string)

  /** Tables or rows that already exist are skipped quietly; any other error is logged. */
  function Classify(outcome: Exec): (step: Step)
    ensures step == Executed <==> outcome.Done?
    ensures step == Skipped <==> outcome.Failed? && (outcome.code == "ER_TABLE_EXISTS_ERROR" || outcome.code == "ER_DUP_ENTRY")
    ensures step.Logged? ==> outcome.Failed? && step.message == outcome.message
  {
    match outcome
    case Done => Executed
    case Failed(code, message) =>
      if code == "ER_TABLE_EXISTS_ERROR" || code == "ER_DUP_ENTRY" then Skipped else Logged(message)
  }

  /**
   * Sends every statement whatever happened to the ones before, and reports
   * what became of each.
   */
  method InitStatements(schema: string, driver: (nat, string) -> Exec) returns (sent: seq<string>, steps: seq<Step>)
    ensures sent == Statements(schema)
    ensures |steps| == |sent|
    ensures forall k :: 0 <= k < |sent| ==> steps[k] == Classify(driver(k, sent[k]))
  {
    var statements := NonEmpty(TrimAll(Split(schema, ';')));
    sent, steps := [], [];
    for i := 0 to |statements|
      invariant sent == statements[..i]
      invariant |steps| == i
      invariant forall k :: 0 <= k < i ==> steps[k] == Classify(driver(k, statements[k]))
    {
      var outcome := driver(i, statements[i]);
      sent := sent + [statements[i]];
      steps := steps + [Classify(outcome)];
    }
    assert statements[..|statements|] == statements;
  }

  /**
   * When the driver accepts everything, both loaders send the same
   * statements: the stopping loader runs to the end, and the continuing one
   * reports every statement executed.
   */
  lemma LoadersAgreeWhenAllSucceed(script: string, driver: (nat, string) -> Exec,
                                   executed: seq<string>, error: Option<Exec>, sent: seq<string>, steps: seq<Step>)
    requires forall k: nat, st :: driver(k, st) == Done
    requires error.None? <==> AcceptedBefore(driver, TrimAll(Commands(script)), |Commands(script)|)
    requires error.None? ==> executed == TrimAll(Commands(script))
    requires sent == Statements(script) && |steps| == |sent|
    requires forall k :: 0 <= k < |sent| ==> steps[k] == Classify(driver(k, sent[k]))
    ensures error.None? && executed == sent
    ensures forall k :: 0 <= k < |steps| ==> steps[k] == Executed
  {
    PipelinesAgree(script);
  }
}
