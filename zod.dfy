/**
  The part of the schema library's behaviour that the validators rely on:
  an issue names the path of the value it is about and carries the message
  of the check that failed. Checks on one value are non-fatal, so a value
  that fails several checks gets one issue per failing check, in the order
  the schema declares them.
 */
module Zod {
  import opened Common

  datatype PathSegment = Key(name: string) | Index(position: nat)

  datatype Issue = Issue(path: seq<PathSegment>, message: string)

  /** One declared check on a value: whether it holds and the message it
      reports when it does not. */
  datatype Check = Check(ok: bool, message: string)

  /** How many of the first `j` checks fail. */
  function FailuresBefore(checks: seq<Check>, j: nat): nat
    requires j <= |checks|
  {
    if j == 0 then 0 else (if checks[0].ok then 0 else 1) + FailuresBefore(checks[1..], j - 1)
  }

  /** The issues a sequence of checks on the value at `path` reports: one per
      failing check, carrying its message, in the order the checks are
      declared. None exactly when every check holds; all at `path`. */
  function Failing(path: seq<PathSegment>, checks: seq<Check>): (issues: seq<Issue>)
    ensures issues == [] <==> forall i :: 0 <= i < |checks| ==> checks[i].ok
    ensures forall k :: 0 <= k < |issues| ==> issues[k].path == path
  {
    if checks == [] then []
    else
      var here := if checks[0].ok then [] else [Issue(path, checks[0].message)];
      var rest := Failing(path, checks[1..]);
      assert forall i :: 1 <= i < |checks| ==> checks[i] == checks[1..][i - 1];
      here + rest
  }

  /** There is one issue per failing check and no other, and the failing
      check at position `i` reports, with its own message, the issue at the
      position that counts the failures before it: the issues follow the
      checks' order. */
  lemma {:induction false} FailingInOrder(path: seq<PathSegment>, checks: seq<Check>)
    ensures |Failing(path, checks)| == FailuresBefore(checks, |checks|)
    ensures forall i :: 0 <= i < |checks| && !checks[i].ok ==>
      FailuresBefore(checks, i) < |Failing(path, checks)|
      && Failing(path, checks)[FailuresBefore(checks, i)] == Issue(path, checks[i].message)
  {
    if checks != [] {
      var here := if checks[0].ok then [] else [Issue(path, checks[0].message)];
      var rest := Failing(path, checks[1..]);
      FailingInOrder(path, checks[1..]);
      assert Failing(path, checks) == here + rest;
      assert forall i :: 1 <= i < |checks| ==> checks[i] == checks[1..][i - 1];
      assert forall i :: 1 <= i <= |checks| ==> FailuresBefore(checks, i) == |here| + FailuresBefore(checks[1..], i - 1);
    }
  }

  /** The library's own format checks and conversions, which the model takes
      as given: `.email()`, `.url()`, membership of the two native enums, and
      `new Date(text)` (None for an invalid date). Times are milliseconds. */
  datatype Formats = Formats(
    isEmail: string -> bool,
    isUrl: string -> bool,
    isDifficulty: string -> bool,
    isStatus: string -> bool,
    parseDate: string -> Option<int>)

  /** The path of a top-level field. */
  function Field(name: string): seq<PathSegment> {
    [Key(name)]
  }
}
