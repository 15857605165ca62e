/** The log-level choice of `ConfigureLogging` (cmd/istio-cni/main.go). */
module Logging {

  /** The three logrus levels the plugin can select. */
  datatype Level = Debug | Info | Warn

  /** Lower-cases an ASCII letter and leaves every other character alone. */
  function FoldChar(c: char): (d: char)
    ensures !('A' <= d <= 'Z')
    ensures d != c ==> 'a' <= d <= 'z'
  {
    if 'A' <= c <= 'Z' then (c as int + 32) as char else c
  }

  /** Folding twice is folding once. */
  lemma FoldCharIdempotent(c: char)
    ensures FoldChar(FoldChar(c)) == FoldChar(c)
  {
  }

  /** Which characters fold together: a character, and its ASCII partner in the
      other case when it is a letter. */
  lemma FoldCharAgree(c: char, d: char)
    ensures FoldChar(c) == FoldChar(d) <==>
            c == d || ('A' <= c <= 'Z' && d as int == c as int + 32) || ('A' <= d <= 'Z' && c as int == d as int + 32)
  {
  }

  /** `strings.EqualFold`, compared character by character from the front. */
  predicate EqualFold(a: string, b: string)
  {
    if a == [] || b == [] then a == b
    else FoldChar(a[0]) == FoldChar(b[0]) && EqualFold(a[1..], b[1..])
  }

  /** EqualFold holds exactly when the strings have the same length and agree
      position by position after folding. */
  lemma {:induction false} EqualFoldPointwise(a: string, b: string)
    ensures EqualFold(a, b) <==> |a| == |b| && forall i :: 0 <= i < |a| ==> FoldChar(a[i]) == FoldChar(b[i])
  {
    if a != [] && b != [] {
      EqualFoldPointwise(a[1..], b[1..]);
      if |a| == |b| && forall i :: 0 <= i < |a| ==> FoldChar(a[i]) == FoldChar(b[i]) {
        forall i | 0 <= i < |a| - 1 ensures FoldChar(a[1..][i]) == FoldChar(b[1..][i]) {
          assert a[1..][i] == a[i + 1] && b[1..][i] == b[i + 1];
        }
      }
      if EqualFold(a, b) {
        forall i | 0 <= i < |a| ensures FoldChar(a[i]) == FoldChar(b[i]) {
          if i > 0 { assert a[1..][i - 1] == a[i] && b[1..][i - 1] == b[i]; }
        }
      }
    }
  }

  /** Case-insensitive equality is an equivalence. */
  lemma EqualFoldEquivalence(a: string, b: string, c: string)
    ensures EqualFold(a, a)
    ensures EqualFold(a, b) ==> EqualFold(b, a)
    ensures EqualFold(a, b) && EqualFold(b, c) ==> EqualFold(a, c)
  {
    EqualFoldPointwise(a, a);
    EqualFoldPointwise(a, b);
    EqualFoldPointwise(b, a);
    EqualFoldPointwise(b, c);
    EqualFoldPointwise(a, c);
  }

  /** The level `ConfigureLogging` installs for a configured `log_level`. */
  function LevelFor(logLevel: string): (l: Level)
    ensures l == Debug <==> EqualFold(logLevel, "debug")
    ensures l == Info <==> !EqualFold(logLevel, "debug") && EqualFold(logLevel, "info")
    ensures l == Warn <==> !EqualFold(logLevel, "debug") && !EqualFold(logLevel, "info")
  {
    if EqualFold(logLevel, "debug") then Debug
    else if EqualFold(logLevel, "info") then Info
    else Warn
  }

  /** Two spellings that differ only in case select the same level. */
  lemma LevelForIgnoresCase(s: string, t: string)
    requires EqualFold(s, t)
    ensures LevelFor(s) == LevelFor(t)
  {
    EqualFoldEquivalence(s, t, "debug");
    EqualFoldEquivalence(t, s, "debug");
    EqualFoldEquivalence(s, t, "info");
    EqualFoldEquivalence(t, s, "info");
  }

  /** Every capitalisation of `debug` selects Debug, and every capitalisation
      of `info` selects Info. */
  lemma LevelForAnyCapitalisation(s: string)
    ensures |s| == 5 && (forall i :: 0 <= i < 5 ==> s[i] == "debug"[i] || s[i] == "DEBUG"[i]) ==> LevelFor(s) == Debug
    ensures |s| == 4 && (forall i :: 0 <= i < 4 ==> s[i] == "info"[i] || s[i] == "INFO"[i]) ==> LevelFor(s) == Info
  {
    EqualFoldPointwise(s, "debug");
    EqualFoldPointwise(s, "info");
  }

  /** Sample spellings: any capitalisation of the two names, everything else warns. */
  lemma LevelForExamples()
    ensures LevelFor("DEBUG") == Debug && LevelFor("Info") == Info
    ensures LevelFor("") == Warn && LevelFor("warning") == Warn && LevelFor("debug ") == Warn
  {
  }
}
