/** The one-line preview stored with an event. */
module Preview {
  import Sessions

  /** The four characters the loop treats as white space. */
  predicate Breaks(c: char) {
    c == '\r' || c == '\n' || c == '\t' || c == ' '
  }

  /** Every run of them becomes one space; after one, inWS holds. */
  function Squeeze(s: string, inWS: bool): string {
    if s == [] then []
    else if Breaks(s[0]) then (if inWS then [] else " ") + Squeeze(s[1..], true)
    else [s[0]] + Squeeze(s[1..], false)
  }

  lemma {:induction false} SqueezeAt(s: string, i: nat, inWS: bool)
    requires i < |s|
    ensures Squeeze(s[i..], inWS)
         == (if !Breaks(s[i]) then [s[i]] else if inWS then [] else [' ']) + Squeeze(s[i + 1..], Breaks(s[i]))
  {
    assert s[i..][1..] == s[i + 1..];
  }

  method NormalizeWS(s: string) returns (out: string)
    ensures out == Squeeze(s, false)
  {
    hide Squeeze;
    out := [];
    var inWS := false;
    assert s[0..] == s;
    for i := 0 to |s|
      invariant out + Squeeze(s[i..], inWS) == Squeeze(s, false)
    {
      var r := s[i];
      SqueezeAt(s, i, inWS);
      if r == '\r' || r == '\n' || r == '\t' { r := ' '; }
      if r == ' ' {
        if !inWS {
          assert out + ([r] + Squeeze(s[i + 1..], true)) == (out + [r]) + Squeeze(s[i + 1..], true);
          out := out + [r];
        }
        assert out + ([] + Squeeze(s[i + 1..], true)) == out + Squeeze(s[i + 1..], true);
        inWS := true;
      } else {
        inWS := false;
        assert out + ([r] + Squeeze(s[i + 1..], false)) == (out + [r]) + Squeeze(s[i + 1..], false);
        out := out + [r];
      }
    }
    NothingLeft(s, inWS);
  }

  lemma {:induction false} NothingLeft(s: string, inWS: bool)
    ensures Squeeze(s[|s|..], inWS) == []
  {
  }

  /** What is not white space, in order. */
  function Letters(s: string): string {
    if s == [] then [] else (if Breaks(s[0]) then [] else [s[0]]) + Letters(s[1..])
  }

  /** No white space but single spaces. */
  ghost predicate Clean(s: string) {
    && (forall i :: 0 <= i < |s| && Breaks(s[i]) ==> s[i] == ' ')
    && (forall i :: 0 < i < |s| && s[i] == ' ' ==> s[i - 1] != ' ')
  }

  /** Squeezing leaves single spaces only and loses no letter. */
  lemma {:induction false} SqueezedIsClean(s: string, inWS: bool)
    ensures Clean(Squeeze(s, inWS)) && Letters(Squeeze(s, inWS)) == Letters(s)
    ensures inWS && Squeeze(s, inWS) != [] ==> Squeeze(s, inWS)[0] != ' '
  {
    if s != [] {
      SqueezedIsClean(s[1..], Breaks(s[0]));
      var tail := Squeeze(s[1..], Breaks(s[0]));
      var out := Squeeze(s, inWS);
      if Breaks(s[0]) && inWS {
        assert out == tail;
      } else {
        assert out == [if Breaks(s[0]) then ' ' else s[0]] + tail && out[1..] == tail;
        assert forall i :: 0 < i < |out| ==> out[i] == tail[i - 1];
      }
    }
  }

  lemma {:induction false} CleanStays(s: string, inWS: bool)
    requires Clean(s) && (inWS && s != [] ==> s[0] != ' ')
    ensures Squeeze(s, inWS) == s
  {
    if s != [] {
      assert forall i :: 0 <= i < |s[1..]| ==> s[1..][i] == s[i + 1];
      CleanStays(s[1..], Breaks(s[0]));
    }
  }

  /** strings.TrimSpace. */
  function Trim(s: string): string {
    if s == [] then []
    else if Sessions.IsSpace(s[0]) then Trim(s[1..])
    else if Sessions.IsSpace(s[|s| - 1]) then Trim(s[..|s| - 1])
    else s
  }

  predicate Trimmed(s: string) {
    s == [] || (!Sessions.IsSpace(s[0]) && !Sessions.IsSpace(s[|s| - 1]))
  }

  lemma {:induction false} TrimmedAndClean(s: string)
    ensures Trimmed(Trim(s)) && |Trim(s)| <= |s| && (Clean(s) ==> Clean(Trim(s)))
    ensures Trim(s) == [] <==> Sessions.Blank(s)
  {
    if s != [] {
      if Sessions.IsSpace(s[0]) {
        assert forall i :: 0 < i < |s| ==> s[i] == s[1..][i - 1];
        TrimmedAndClean(s[1..]);
      } else if Sessions.IsSpace(s[|s| - 1]) {
        TrimmedAndClean(s[..|s| - 1]);
      }
    }
  }

  lemma {:induction false} BlankConcat(a: string, b: string)
    requires Sessions.Blank(a) && Sessions.Blank(b)
    ensures Sessions.Blank(a + b)
  {
    hide Sessions.IsSpace;
  }

  lemma {:induction false} BlankChar(c: char)
    requires Sessions.IsSpace(c)
    ensures Sessions.Blank([c])
  {
    hide Sessions.IsSpace;
  }

  /** Trimming takes white space off both ends, and nothing else. */
  lemma {:induction false} TrimTakesEnds(s: string) returns (front: string, back: string)
    ensures s == front + Trim(s) + back && Sessions.Blank(front) && Sessions.Blank(back)
  {
    hide Sessions.IsSpace;
    front, back := "", "";
    if s != [] {
      if Sessions.IsSpace(s[0]) {
        var f, b := TrimTakesEnds(s[1..]);
        BlankChar(s[0]);
        BlankConcat([s[0]], f);
        front, back := [s[0]] + f, b;
        assert s == [s[0]] + s[1..];
      } else if Sessions.IsSpace(s[|s| - 1]) {
        var f, b := TrimTakesEnds(s[..|s| - 1]);
        BlankChar(s[|s| - 1]);
        BlankConcat(b, [s[|s| - 1]]);
        front, back := f, b + [s[|s| - 1]];
        assert s == s[..|s| - 1] + [s[|s| - 1]];
      }
    }
  }

  lemma {:induction false} TrimmedStays(s: string)
    requires Trimmed(s)
    ensures Trim(s) == s
  {
  }

  function Limit(maxChars: int): (n: nat)
    ensures n > 0
  {
    if maxChars <= 0 then 80 else maxChars
  }

  function SanitizePreview(text: string, maxChars: int): string {
    var compact := Trim(Squeeze(text, false));
    var max := Limit(maxChars);
    if |compact| <= max then compact
    else compact[..if max < 3 then 0 else max - 3] + "..."
  }

  /** The preview is the trimmed line if that fits, and else as much of its front as leaves room for
      three dots. */
  lemma {:induction false} PreviewShows(text: string, maxChars: int)
    ensures
      var line, p, most := Trim(Squeeze(text, false)), SanitizePreview(text, maxChars), if maxChars <= 0 then 80 else maxChars;
      && (|line| <= most ==> p == line)
      && (|line| > most ==> |p| == (if most < 3 then 3 else most) && p[|p| - 3..] == "..." && p[..|p| - 3] <= line)
  {
    hide Trim, Squeeze;
  }

  /** The preview is one line of single-spaced text, no longer than asked (but never shorter than
      its own dots), and previewing a preview changes nothing. */
  lemma {:induction false} PreviewIsStable(text: string, maxChars: int)
    ensures
      var p := SanitizePreview(text, maxChars);
      && Clean(p) && Trimmed(p) && (|p| <= Limit(maxChars) || p == "...")
      && SanitizePreview(p, maxChars) == p
  {
    hide Squeeze, Trim;
    SqueezedIsClean(text, false);
    TrimmedAndClean(Squeeze(text, false));
    var p := SanitizePreview(text, maxChars);
    assert Clean(p);
    TrimmedStays(p);
    CleanStays(p, false);
  }
}
