/** Vocabulary shared by every component: optional values, results and the
    few string notions the ledger relies on. */
module Prelude {

  datatype Option<+T> = None | Some(value: T) {
    function GetOr(default: T): T {
      match this
      case Some(v) => v
      case None => default
    }
  }

  datatype Result<+T, +E> = Ok(value: T) | Err(error: E)

  /** The exceptions of the write side and the store. */
  datatype Error =
    | DomainError
    | ConcurrencyError(expected: int, actual: int)
    | StreamArchived
    | StreamNotFound

  function Max(a: int, b: int): int { if a < b then b else a }

  function Min(a: int, b: int): int { if a < b then a else b }

  /** The ASCII characters `str.strip()` removes. */
  predicate IsSpace(c: char) {
    c == ' ' || '\t' <= c <= '\r' || 0x1c as char <= c <= 0x1f as char
  }

  predicate IsBlank(s: string) {
    forall i | 0 <= i < |s| :: IsSpace(s[i])
  }

  function StripLeft(s: string): string {
    if s != "" && IsSpace(s[0]) then StripLeft(s[1..]) else s
  }

  function StripRight(s: string): string {
    if s != "" && IsSpace(s[|s| - 1]) then StripRight(s[..|s| - 1]) else s
  }

  function Strip(s: string): string {
    StripRight(StripLeft(s))
  }

  lemma {:induction false} StripRightKeeps(s: string)
    ensures StripRight(s) <= s
    ensures StripRight(s) != "" ==> !IsSpace(StripRight(s)[|StripRight(s)| - 1])
    ensures StripRight(s) == "" <==> IsBlank(s)
  {
    if s != "" && IsSpace(s[|s| - 1]) {
      StripRightKeeps(s[..|s| - 1]);
      assert IsBlank(s[..|s| - 1]) ==> IsBlank(s);
    }
  }

  lemma {:induction false} StripLeftKeeps(s: string)
    ensures StripLeft(s) != "" ==> !IsSpace(StripLeft(s)[0])
    ensures StripLeft(s) == "" <==> IsBlank(s)
    ensures IsBlank(StripLeft(s)) <==> IsBlank(s)
  {
    if s != "" && IsSpace(s[0]) {
      StripLeftKeeps(s[1..]);
      assert forall i | 1 <= i < |s| :: s[i] == s[1..][i - 1];
    }
  }

  /** Stripping takes away blanks at both ends and nothing else. */
  lemma StripCuts(s: string) returns (left: string, right: string)
    ensures s == left + Strip(s) + right && IsBlank(left) && IsBlank(right)
    ensures Strip(s) != "" ==> !IsSpace(Strip(s)[0]) && !IsSpace(Strip(s)[|Strip(s)| - 1])
  {
    left := CutLeft(s);
    right := CutRight(StripLeft(s));
    StripLeftKeeps(s);
    StripRightKeeps(StripLeft(s));
  }

  lemma {:induction false} CutLeft(s: string) returns (left: string)
    ensures s == left + StripLeft(s) && IsBlank(left)
  {
    if s != "" && IsSpace(s[0]) {
      left := CutLeft(s[1..]);
      left := [s[0]] + left;
    } else {
      left := "";
    }
  }

  lemma {:induction false} CutRight(s: string) returns (right: string)
    ensures s == StripRight(s) + right && IsBlank(right)
  {
    if s != "" && IsSpace(s[|s| - 1]) {
      right := CutRight(s[..|s| - 1]);
      right := right + [s[|s| - 1]];
    } else {
      right := "";
    }
  }

  /** Stripping leaves nothing exactly when the text is blank, and stripping a
      second time changes nothing. */
  lemma StripMeaning(s: string)
    ensures Strip(s) == "" <==> IsBlank(s)
    ensures Strip(Strip(s)) == Strip(s)
  {
    StripLeftKeeps(s);
    var l := StripLeft(s);
    StripRightKeeps(l);
    var r := StripRight(l);
    if r != "" {
      assert r[0] == l[0];
      assert StripLeft(r) == r;
      assert StripRight(r) == r;
    }
  }
}
