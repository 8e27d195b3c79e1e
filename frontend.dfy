// Code shared by the frontends (lib.rs): names turned into emoji codes.
module Frontend {
  /** `str::replace(" ", "_")`: every space becomes an underscore, every other character stays. */
  function ReplaceSpaces(s: string): (r: string)
    ensures |r| == |s|
    ensures forall i :: 0 <= i < |s| && s[i] != ' ' ==> r[i] == s[i]
    ensures forall i :: 0 <= i < |s| && s[i] == ' ' ==> r[i] == '_'
  {
    if s == [] then []
    else [if s[0] == ' ' then '_' else s[0]] + ReplaceSpaces(s[1..])
  }

  /**
   * `frontend::emojify`: the name between colons with its spaces turned into
   * underscores, so the result has no spaces, is two characters longer and
   * keeps every other character one place further on.
   */
  function Emojify(txt: string): (r: string)
    ensures |r| == |txt| + 2
    ensures r[0] == ':' && r[|r| - 1] == ':'
    ensures ' ' !in r
    ensures forall i :: 0 <= i < |txt| && txt[i] != ' ' ==> r[i + 1] == txt[i]
    ensures forall i :: 0 <= i < |txt| && txt[i] == ' ' ==> r[i + 1] == '_'
  {
    var r := ":" + ReplaceSpaces(txt) + ":";
    assert forall i :: 0 <= i < |txt| ==> r[i + 1] == ReplaceSpaces(txt)[i];
    r
  }
}
