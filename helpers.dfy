/** The small helpers at the end of internal/github/fetcher.go: splitting a
    repository full name and the nil-defaulting pointer accessors. */
module Helpers {
  import opened Wrappers

  /** A point in time, in whole seconds since the Unix epoch. */
  type Time = int

  /** Go's zero `time.Time` (January 1 of year 1, UTC) in Unix seconds. */
  const ZeroTime: Time := -62135596800

  /** Splits "owner/repo" at the first '/'; with no '/' both parts are empty. */
  function ParseRepoName(fullName: string): (parts: (string, string))
    ensures '/' in fullName ==> '/' !in parts.0 && parts.0 + "/" + parts.1 == fullName
    ensures '/' !in fullName ==> parts == ("", "")
  {
    ScanForSlash(fullName, 0)
  }

  /** The scan of `ParseRepoName` from index `i` on, knowing no '/' comes before `i`. */
  function ScanForSlash(fullName: string, i: nat): (parts: (string, string))
    requires i <= |fullName|
    requires '/' !in fullName[..i]
    ensures '/' in fullName[i..] ==> '/' !in parts.0 && parts.0 + "/" + parts.1 == fullName
    ensures '/' !in fullName[i..] ==> parts == ("", "")
    decreases |fullName| - i
  {
    if i == |fullName| then
      ("", "")
    else if fullName[i] == '/' then
      assert fullName[..i] + "/" + fullName[i + 1..] == fullName;
      (fullName[..i], fullName[i + 1..])
    else
      assert fullName[i..] == [fullName[i]] + fullName[i + 1..];
      assert fullName[..i + 1] == fullName[..i] + [fullName[i]];
      ScanForSlash(fullName, i + 1)
  }

  /** `getStringValue`: nil reads as the empty string. */
  function GetString(s: Option<string>): (r: string)
    ensures s.Some? ==> r == s.value
    ensures s.None? ==> r == ""
  {
    match s
    case None => ""
    case Some(v) => v
  }

  /** `getIntValue`: nil reads as 0. */
  function GetInt(i: Option<int>): (r: int)
    ensures i.Some? ==> r == i.value
    ensures i.None? ==> r == 0
  {
    match i
    case None => 0
    case Some(v) => v
  }

  /** `getTimeValue`: nil reads as Go's zero time. */
  function GetTime(t: Option<Time>): (r: Time)
    ensures t.Some? ==> r == t.value
    ensures t.None? ==> r == ZeroTime
  {
    match t
    case None => ZeroTime
    case Some(v) => v
  }

  /** `getTimePointer`: copies the pointed-to time, keeping nil as nil. */
  function GetTimePointer(t: Option<Time>): (r: Option<Time>)
    ensures r.Some? <==> t.Some?
    ensures t.Some? ==> r.value == t.value
  {
    match t
    case None => None
    case Some(v) => Some(v)
  }

  /** A full name with exactly one '/' splits back into the two names it was made of. */
  lemma {:induction false} ParseRepoNameJoin(owner: string, repo: string)
    requires '/' !in owner
    ensures ParseRepoName(owner + "/" + repo) == (owner, repo)
  {
    var full := owner + "/" + repo;
    assert full[|owner|] == '/';
    assert '/' in full;
    var parts := ParseRepoName(full);
    assert '/' !in parts.0 && parts.0 + "/" + parts.1 == full;
    assert full[|parts.0|] == '/';
    assert forall k :: 0 <= k < |owner| ==> full[k] == owner[k];
    assert forall k :: 0 <= k < |parts.0| ==> full[k] == parts.0[k];
    assert parts.0 == full[..|owner|] == owner;
    assert parts.1 == full[|owner| + 1..] == repo;
  }
}
