/**
 * The SQL text a savepoint primitive executes, and the one dialect rule:
 * on an adapter whose class name matches /oracle/i a commit executes nothing.
 */
module Statements {
  import opened Wrappers

  /** `begin_statement`: SAVEPOINT "<id>". */
  function BeginStatement(id: string): (s: string)
    ensures QuotedAfter(s, "SAVEPOINT \"") == Some(id)
  {
    QuotedAfterBuilt("SAVEPOINT \"", id);
    "SAVEPOINT \"" + id + "\""
  }

  /** The statement `commit_statement` builds when it builds one: RELEASE SAVEPOINT "<id>". */
  function ReleaseStatement(id: string): (s: string)
    ensures QuotedAfter(s, "RELEASE SAVEPOINT \"") == Some(id)
  {
    QuotedAfterBuilt("RELEASE SAVEPOINT \"", id);
    "RELEASE SAVEPOINT \"" + id + "\""
  }

  /** `rollback_statement`: ROLLBACK TO SAVEPOINT "<id>". */
  function RollbackStatement(id: string): (s: string)
    ensures QuotedAfter(s, "ROLLBACK TO SAVEPOINT \"") == Some(id)
  {
    QuotedAfterBuilt("ROLLBACK TO SAVEPOINT \"", id);
    "ROLLBACK TO SAVEPOINT \"" + id + "\""
  }

  /** ASCII case folding, as a case-insensitive regular expression applies it to letters. */
  function LowerAscii(c: char): (l: char)
    ensures 'A' <= c <= 'Z' ==> l as int == c as int + 32
    ensures !('A' <= c <= 'Z') ==> l == c
  {
    if 'A' <= c <= 'Z' then (c as int + 32) as char else c
  }

  /** The lower-case word `w` occurs in `s` at position `i`, ignoring case. */
  ghost predicate OccursIgnoringCaseAt(s: string, i: int, w: string)
  {
    0 <= i && i + |w| <= |s| &&
    forall j :: 0 <= j < |w| ==> LowerAscii(s[i + j]) == w[j]
  }

  /** What /oracle/i =~ name means: "oracle" occurs somewhere in the name, ignoring case. */
  ghost predicate MatchesOracle(name: string)
  {
    exists i :: OccursIgnoringCaseAt(name, i, "oracle")
  }

  /** The word `w` starts `s`, ignoring case. */
  predicate StartsIgnoringCase(s: string, w: string)
  {
    |w| <= |s| && forall j :: 0 <= j < |w| ==> LowerAscii(s[j]) == w[j]
  }

  /**
   * The left-to-right search a regular-expression match performs for
   * /oracle/i: it succeeds exactly when "oracle" occurs in the string.
   */
  predicate ContainsOracle(s: string)
    ensures ContainsOracle(s) <==> MatchesOracle(s)
    decreases |s|
  {
    MatchesOracleStep(s);
    |s| >= 6 && (StartsIgnoringCase(s, "oracle") || ContainsOracle(s[1..]))
  }

  /**
   * One step of the search: a string shorter than the word has no match, and
   * a longer one matches when the word starts it or its tail matches.
   */
  lemma MatchesOracleStep(s: string)
    ensures |s| < 6 ==> !MatchesOracle(s)
    ensures |s| >= 6 ==> (MatchesOracle(s) <==> StartsIgnoringCase(s, "oracle") || MatchesOracle(s[1..]))
  {
    if |s| >= 6 {
      if StartsIgnoringCase(s, "oracle") {
        assert OccursIgnoringCaseAt(s, 0, "oracle");
      }
      if MatchesOracle(s[1..]) {
        var i :| OccursIgnoringCaseAt(s[1..], i, "oracle");
        assert OccursIgnoringCaseAt(s, i + 1, "oracle") by {
          forall j | 0 <= j < 6 ensures LowerAscii(s[i + 1 + j]) == "oracle"[j] {
            assert s[i + 1 + j] == s[1..][i + j];
          }
        }
      }
      if MatchesOracle(s) {
        var i :| OccursIgnoringCaseAt(s, i, "oracle");
        if i > 0 {
          assert OccursIgnoringCaseAt(s[1..], i - 1, "oracle") by {
            forall j | 0 <= j < 6 ensures LowerAscii(s[1..][i - 1 + j]) == "oracle"[j] {
              assert s[1..][i - 1 + j] == s[i + j];
            }
          }
        }
      }
    }
  }

  /**
   * `commit_statement` applied to the id: nothing for an adapter whose class
   * name matches /oracle/i, RELEASE SAVEPOINT "<id>" for every other adapter,
   * including one whose class is anonymous (its name is nil and matches nothing).
   */
  function CommitStatement(className: Option<string>, id: string): (s: Option<string>)
    ensures s.None? <==> (className.Some? && MatchesOracle(className.value))
    ensures s.Some? ==> s.value == ReleaseStatement(id)
  {
    match className
    case None => Some(ReleaseStatement(id))
    case Some(name) =>
      if ContainsOracle(name) then None else Some(ReleaseStatement(id))
  }

  /** The three savepoint commands, each naming its savepoint. */
  datatype SavepointCommand =
    | Savepoint(name: string)
    | ReleaseSavepoint(name: string)
    | RollbackToSavepoint(name: string)

  /** The text between `prefix` and a closing double quote, if `s` has that shape. */
  function QuotedAfter(s: string, prefix: string): (r: Option<string>)
    ensures r.Some? ==> s == prefix + r.value + "\""
  {
    if |prefix| + 1 <= |s| && s[..|prefix|] == prefix && s[|s| - 1] == '"' then
      assert s == s[..|prefix|] + s[|prefix|..|s| - 1] + [s[|s| - 1]];
      Some(s[|prefix|..|s| - 1])
    else
      None
  }

  /** Reads a statement back as the savepoint command it is, if it is one. */
  function ParseStatement(s: string): (c: Option<SavepointCommand>)
    ensures c.Some? && c.value.Savepoint? ==> s == BeginStatement(c.value.name)
    ensures c.Some? && c.value.ReleaseSavepoint? ==> s == ReleaseStatement(c.value.name)
    ensures c.Some? && c.value.RollbackToSavepoint? ==> s == RollbackStatement(c.value.name)
  {
    match QuotedAfter(s, "SAVEPOINT \"")
    case Some(n) => Some(Savepoint(n))
    case None =>
      match QuotedAfter(s, "RELEASE SAVEPOINT \"")
      case Some(n) => Some(ReleaseSavepoint(n))
      case None =>
        match QuotedAfter(s, "ROLLBACK TO SAVEPOINT \"")
        case Some(n) => Some(RollbackToSavepoint(n))
        case None => None
  }

  lemma QuotedAfterBuilt(prefix: string, id: string)
    ensures QuotedAfter(prefix + id + "\"", prefix) == Some(id)
  {
  }

  /** Every statement a savepoint primitive executes reads back as its command and its id. */
  lemma {:induction false} StatementsRoundTrip(id: string)
    ensures ParseStatement(BeginStatement(id)) == Some(Savepoint(id))
    ensures ParseStatement(ReleaseStatement(id)) == Some(ReleaseSavepoint(id))
    ensures ParseStatement(RollbackStatement(id)) == Some(RollbackToSavepoint(id))
  {
    QuotedAfterBuilt("SAVEPOINT \"", id);
    QuotedAfterBuilt("RELEASE SAVEPOINT \"", id);
    QuotedAfterBuilt("ROLLBACK TO SAVEPOINT \"", id);
    assert ReleaseStatement(id)[0] == 'R' && RollbackStatement(id)[0] == 'R';
    assert RollbackStatement(id)[1] == 'O';
    assert QuotedAfter(ReleaseStatement(id), "SAVEPOINT \"") == None;
    assert QuotedAfter(RollbackStatement(id), "SAVEPOINT \"") == None;
    assert QuotedAfter(RollbackStatement(id), "RELEASE SAVEPOINT \"") == None;
  }

  /** The three statements differ from one another, and each determines the id it names. */
  lemma StatementsDistinct(id: string, id': string)
    ensures BeginStatement(id) != ReleaseStatement(id')
    ensures BeginStatement(id) != RollbackStatement(id')
    ensures ReleaseStatement(id) != RollbackStatement(id')
    ensures BeginStatement(id) == BeginStatement(id') ==> id == id'
    ensures ReleaseStatement(id) == ReleaseStatement(id') ==> id == id'
    ensures RollbackStatement(id) == RollbackStatement(id') ==> id == id'
  {
    StatementsRoundTrip(id);
    StatementsRoundTrip(id');
  }
}
