/** Platform sniffing (`getOS` and `isOSX` in use-hooks.ts).
    The classification reads only `navigator.appVersion`; a missing `navigator`
    (server-side rendering, tests under Node) is modelled by `None`. */
module Platform {
  import opened Wrappers

  const OSX: string := "OSX"
  const WINDOWS: string := "WINDOWS"
  const LINUX: string := "LINUX"
  const UNIX: string := "UNIX"
  /** The value for "no navigator": the very same string as UNIX. */
  const NODE: string := "UNIX"

  /** `sub` occurs in `s` starting at index `i`. */
  predicate OccursAt(s: string, sub: string, i: nat) {
    i + |sub| <= |s| && s[i..i + |sub|] == sub
  }

  /** The specification of a substring test, independent of any search order. */
  ghost predicate Contains(s: string, sub: string) {
    exists i: nat :: OccursAt(s, sub, i)
  }

  /** `String.prototype.indexOf` searching from position `from`:
      the first occurrence at or after `from`, or -1. */
  function IndexOfFrom(s: string, sub: string, from: nat): (r: int)
    decreases |s| - from
    ensures r == -1 || (from <= r && OccursAt(s, sub, r))
    ensures forall i: nat :: from <= i && (r == -1 || i < r) ==> !OccursAt(s, sub, i)
  {
    if |s| < from + |sub| then -1
    else if OccursAt(s, sub, from) then from
    else IndexOfFrom(s, sub, from + 1)
  }

  /** `s.indexOf(sub)`: -1 exactly when `sub` does not occur, otherwise its first position. */
  function IndexOf(s: string, sub: string): (r: int)
    ensures r == -1 <==> !Contains(s, sub)
    ensures r != -1 ==> 0 <= r && OccursAt(s, sub, r) && forall i: nat :: i < r ==> !OccursAt(s, sub, i)
  {
    IndexOfFrom(s, sub, 0)
  }

  /** `getOS()`: the substrings are tried in the order Win, Mac, X11, Linux and the
      first one present decides; no navigator, or no match, gives NODE ("UNIX"). */
  function GetOS(appVersion: Option<string>): (os: string)
    ensures os in {OSX, WINDOWS, LINUX, UNIX}
    ensures appVersion.None? ==> os == NODE
    ensures appVersion.Some? ==>
      var v := appVersion.value;
      os == if Contains(v, "Win") then WINDOWS
            else if Contains(v, "Mac") then OSX
            else if Contains(v, "X11") then UNIX
            else if Contains(v, "Linux") then LINUX
            else NODE
  {
    match appVersion
    case None => NODE
    case Some(v) =>
      if IndexOf(v, "Win") != -1 then WINDOWS
      else if IndexOf(v, "Mac") != -1 then OSX
      else if IndexOf(v, "X11") != -1 then UNIX
      else if IndexOf(v, "Linux") != -1 then LINUX
      else NODE
  }

  /** `isOSX()`: true exactly for an appVersion that mentions "Mac" but not "Win". */
  function IsOSX(appVersion: Option<string>): (b: bool)
    ensures b <==> appVersion.Some? && Contains(appVersion.value, "Mac") && !Contains(appVersion.value, "Win")
  {
    GetOS(appVersion) == OSX
  }

  /** "Win" is tested first, so an appVersion naming both Windows and Mac is Windows. */
  lemma WinBeforeMac(v: string)
    requires Contains(v, "Win")
    ensures GetOS(Some(v)) == WINDOWS
    ensures !IsOSX(Some(v))
  {
  }

  /** Without a navigator the result equals the X11 result: NODE and UNIX are one string. */
  lemma HeadlessLooksLikeX11(v: string)
    requires !Contains(v, "Win") && !Contains(v, "Mac") && Contains(v, "X11")
    ensures GetOS(None) == GetOS(Some(v)) == UNIX
  {
  }

  /** A concrete appVersion: "Mac" alone classifies as OSX. */
  lemma MacAppVersionIsOSX()
    ensures IsOSX(Some("Mac"))
  {
    var v := "Mac";
    assert OccursAt(v, "Mac", 0);
  }
}
