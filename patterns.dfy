/**
 * The three URL patterns of the agent, identical in both agent versions:
 *
 *   traces     \/com\.instana\.plugin\..*\/traces\.\d+
 *   discovery  \/com\.instana\.plugin\..*\.discovery
 *   ping       \/com\.instana\.plugin\..*\.\d+
 *
 * Each is the plugin prefix, then `.*` (any run of characters other than a
 * newline, as `.` is in Go's RE2 syntax), then a fixed tail, optionally
 * followed by a digit. `MatchString` is an unanchored search, and `\d+` is
 * satisfied as soon as one digit is there, so a `Pattern` records just the
 * tail and whether a digit must follow it.
 */
module Patterns {
  import opened Text

  const PluginPrefix: string := "/com.instana.plugin."

  datatype Pattern = Pattern(tail: string, digitAfter: bool)

  const TracesPattern: Pattern := Pattern("/traces.", true)
  const DiscoveryPattern: Pattern := Pattern(".discovery", false)
  const PingPattern: Pattern := Pattern(".", true)

  /** `w` occurs in `s` at position `i`. */
  predicate HasAt(s: string, i: int, w: string) {
    0 <= i && i + |w| <= |s| && s[i..i + |w|] == w
  }

  /** The tail of `p` (and its digit, if required) occurs in `s` at position `j`. */
  predicate EndsAt(p: Pattern, s: string, j: int) {
    HasAt(s, j, p.tail) && (p.digitAfter ==> j + |p.tail| < |s| && IsDigit(s[j + |p.tail|]))
  }

  predicate NoNewline(s: string, lo: int, hi: int)
    requires 0 <= lo <= hi <= |s|
  {
    forall k :: lo <= k < hi ==> s[k] != '\n'
  }

  /** The regular expression of `p` matches `s` with the prefix at `i` and the tail at `j`. */
  ghost predicate MatchAt(p: Pattern, s: string, i: int, j: int) {
    HasAt(s, i, PluginPrefix) && i + |PluginPrefix| <= j <= |s| && EndsAt(p, s, j)
    && NoNewline(s, i + |PluginPrefix|, j)
  }

  /** Declarative meaning of `re.MatchString(s)`: some substring of `s` matches. */
  ghost predicate Matches(p: Pattern, s: string) {
    exists i, j :: MatchAt(p, s, i, j)
  }

  /** Looks for the tail from `j` on, without crossing a newline. */
  function ScanTail(p: Pattern, s: string, j: int): bool
    requires 0 <= j <= |s|
    decreases |s| - j
  {
    EndsAt(p, s, j) || (j < |s| && s[j] != '\n' && ScanTail(p, s, j + 1))
  }

  /** Looks for a prefix at `i` or later that a tail follows. */
  function ScanFrom(p: Pattern, s: string, i: int): bool
    requires 0 <= i <= |s|
    decreases |s| - i
  {
    (HasAt(s, i, PluginPrefix) && ScanTail(p, s, i + |PluginPrefix|))
    || (i < |s| && ScanFrom(p, s, i + 1))
  }

  /** `re.MatchString(s)` as a left-to-right search. */
  function MatchString(p: Pattern, s: string): bool {
    ScanFrom(p, s, 0)
  }

  lemma {:induction false} ScanTailIff(p: Pattern, s: string, j: int)
    requires 0 <= j <= |s|
    ensures ScanTail(p, s, j) <==> exists j' :: j <= j' <= |s| && EndsAt(p, s, j') && NoNewline(s, j, j')
    decreases |s| - j
  {
    if ScanTail(p, s, j) {
      if !EndsAt(p, s, j) {
        ScanTailIff(p, s, j + 1);
        var j' :| j + 1 <= j' <= |s| && EndsAt(p, s, j') && NoNewline(s, j + 1, j');
        assert NoNewline(s, j, j');
      } else {
        assert NoNewline(s, j, j);
      }
    }
    if exists j' :: j <= j' <= |s| && EndsAt(p, s, j') && NoNewline(s, j, j') {
      var j' :| j <= j' <= |s| && EndsAt(p, s, j') && NoNewline(s, j, j');
      if j' > j {
        assert s[j] != '\n';
        assert NoNewline(s, j + 1, j');
        ScanTailIff(p, s, j + 1);
      }
    }
  }

  lemma {:induction false} ScanFromIff(p: Pattern, s: string, i: int)
    requires 0 <= i <= |s|
    ensures ScanFrom(p, s, i) <==> exists i', j :: i <= i' && MatchAt(p, s, i', j)
    decreases |s| - i
  {
    if HasAt(s, i, PluginPrefix) {
      ScanTailIff(p, s, i + |PluginPrefix|);
      if ScanTail(p, s, i + |PluginPrefix|) {
        var j :| i + |PluginPrefix| <= j <= |s| && EndsAt(p, s, j) && NoNewline(s, i + |PluginPrefix|, j);
        assert MatchAt(p, s, i, j);
      }
    }
    if i < |s| {
      ScanFromIff(p, s, i + 1);
    }
    if exists i', j :: i <= i' && MatchAt(p, s, i', j) {
      var i', j :| i <= i' && MatchAt(p, s, i', j);
      if i' == i {
        ScanTailIff(p, s, i + |PluginPrefix|);
      } else {
        assert i < |s|;
        assert i + 1 <= i' && MatchAt(p, s, i', j);
      }
    }
  }

  /** The search agrees with the declarative meaning of the pattern. */
  lemma MatchStringCorrect(p: Pattern, s: string)
    ensures MatchString(p, s) <==> Matches(p, s)
  {
    ScanFromIff(p, s, 0);
  }

  /** Every URL the traces pattern accepts, the ping pattern accepts too. */
  lemma TracesImpliesPing(s: string)
    requires Matches(TracesPattern, s)
    ensures Matches(PingPattern, s)
  {
    var i, j :| MatchAt(TracesPattern, s, i, j);
    var tail := TracesPattern.tail;
    assert s[j..j + 8] == tail;
    assert forall k :: j <= k < j + 8 ==> s[k] == tail[k - j];
    assert s[j + 7..j + 8] == ".";
    assert NoNewline(s, i + |PluginPrefix|, j + 7);
    assert MatchAt(PingPattern, s, i, j + 7);
  }

  /** Whatever the traces pattern matches has a slash where its tail begins. */
  lemma TracesTailStartsWithSlash(s: string, i: int, j: int)
    requires MatchAt(TracesPattern, s, i, j)
    ensures |PluginPrefix| <= j < |s| && s[j] == '/'
  {
    assert s[j..j + 8][0] == s[j];
  }

  /** The ping pattern is strictly weaker: a plain ping URL is not a traces URL. */
  lemma PingDoesNotImplyTraces()
    ensures var u := PluginPrefix + "golang.12345";
      Matches(PingPattern, u) && !Matches(TracesPattern, u)
  {
    var tail := "golang.12345";
    var u := PluginPrefix + tail;
    assert u[0..20] == PluginPrefix;
    assert u[26..27] == ".";
    assert u[27] == '1';
    assert forall k :: 20 <= k < |u| ==> u[k] == tail[k - 20];
    assert forall k :: 0 <= k < |tail| ==> tail[k] != '/';
    assert NoNewline(u, 20, 26);
    assert MatchAt(PingPattern, u, 0, 26);
    forall i, j | MatchAt(TracesPattern, u, i, j)
      ensures |PluginPrefix| <= j < |u| && u[j] == '/'
    {
      TracesTailStartsWithSlash(u, i, j);
    }
  }
}
