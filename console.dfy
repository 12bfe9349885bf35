/** The log console's view filter (components/Console.tsx): a case-insensitive
    substring match on the message combined with an optional exact level match. */
module Console {
  import opened Types
  import opened Seqs

  /** The level selector: every level, or one level exactly. */
  datatype LevelFilter = All | Only(level: LogLevel)

  /** `toLowerCase` on one character, over ASCII. */
  function LowerChar(c: char): char
  {
    if 'A' <= c <= 'Z' then (c as int + 32) as char else c
  }

  /** `toUpperCase` on one character, over ASCII. */
  function UpperChar(c: char): char
  {
    if 'a' <= c <= 'z' then (c as int - 32) as char else c
  }

  function Lower(s: string): (r: string)
    ensures |r| == |s| && forall i :: 0 <= i < |s| ==> r[i] == LowerChar(s[i])
  {
    seq(|s|, i requires 0 <= i < |s| => LowerChar(s[i]))
  }

  function Upper(s: string): (r: string)
    ensures |r| == |s| && forall i :: 0 <= i < |s| ==> r[i] == UpperChar(s[i])
  {
    seq(|s|, i requires 0 <= i < |s| => UpperChar(s[i]))
  }

  /** `needle` occurs in `hay` starting at position `k`. */
  predicate OccursAt(hay: string, needle: string, k: nat)
  {
    k + |needle| <= |hay| && hay[k..k + |needle|] == needle
  }

  /** `hay.includes(needle)`. */
  function Includes(hay: string, needle: string): bool
    decreases |hay|
  {
    if needle <= hay then true
    else if hay == [] then false
    else Includes(hay[1..], needle)
  }

  /** `Includes` finds `needle` exactly when it occurs in `hay` at some position. */
  lemma {:induction false} IncludesIff(hay: string, needle: string)
    ensures Includes(hay, needle) <==> exists k: nat :: OccursAt(hay, needle, k)
    decreases |hay|
  {
    if needle <= hay {
      assert OccursAt(hay, needle, 0);
    } else if hay != [] {
      IncludesIff(hay[1..], needle);
      forall k: nat | OccursAt(hay[1..], needle, k) ensures OccursAt(hay, needle, k + 1) {
        assert hay[1..][k..k + |needle|] == hay[k + 1..k + 1 + |needle|];
      }
      forall k: nat | OccursAt(hay, needle, k) ensures OccursAt(hay[1..], needle, k - 1) {
        if k == 0 {
          assert false;
        }
        assert hay[1..][k - 1..k - 1 + |needle|] == hay[k..k + |needle|];
      }
    }
  }

  /** The predicate of `logs.filter(...)` at Console.tsx:75-79. */
  predicate Matches(e: LogEntry, filter: string, lf: LevelFilter)
  {
    && Includes(Lower(e.message), Lower(filter))
    && (lf.All? || e.level == lf.level)
  }

  function Matcher(filter: string, lf: LevelFilter): LogEntry -> bool
  {
    e => Matches(e, filter, lf)
  }

  /** `filteredLogs`. */
  function FilteredLogs(logs: seq<LogEntry>, filter: string, lf: LevelFilter): (r: seq<LogEntry>)
    ensures IsSubsequence(r, logs)
    ensures forall e :: e in r <==> e in logs && Matches(e, filter, lf)
    ensures forall e :: multiset(r)[e] == if Matches(e, filter, lf) then multiset(logs)[e] else 0
    ensures lf.Only? ==> forall e :: e in r ==> e.level == lf.level
  {
    Keep(logs, Matcher(filter, lf))
  }

  /** With level ALL and an empty search string the console shows every log. */
  lemma FilterShowsAll(logs: seq<LogEntry>)
    ensures FilteredLogs(logs, "", All) == logs
  {
    forall e | e in logs ensures Matcher("", All)(e) {
      assert OccursAt(Lower(e.message), Lower(""), 0);
    }
    KeepAll(logs, Matcher("", All));
  }

  /** The match depends on the search string only through its lower-case form. */
  lemma FilterDependsOnLowerCase(logs: seq<LogEntry>, f: string, g: string, lf: LevelFilter)
    requires Lower(f) == Lower(g)
    ensures FilteredLogs(logs, f, lf) == FilteredLogs(logs, g, lf)
  {
    KeepSame(logs, Matcher(f, lf), Matcher(g, lf));
  }

  lemma LowerOfUpper(s: string)
    ensures Lower(Upper(s)) == Lower(s)
  {
    forall i | 0 <= i < |s| ensures Lower(Upper(s))[i] == Lower(s)[i] {
      var c := s[i];
      assert Upper(s)[i] == UpperChar(c);
    }
  }

  lemma LowerOfLower(s: string)
    ensures Lower(Lower(s)) == Lower(s)
  {
    forall i | 0 <= i < |s| ensures Lower(Lower(s))[i] == Lower(s)[i] {
      assert Lower(s)[i] == LowerChar(s[i]);
    }
  }

  /** Case-insensitivity: typing the search string in upper or lower case shows the
      same entries. */
  lemma FilterIgnoresCase(logs: seq<LogEntry>, f: string, lf: LevelFilter)
    ensures FilteredLogs(logs, Upper(f), lf) == FilteredLogs(logs, f, lf)
    ensures FilteredLogs(logs, Lower(f), lf) == FilteredLogs(logs, f, lf)
  {
    LowerOfUpper(f);
    FilterDependsOnLowerCase(logs, Upper(f), f, lf);
    LowerOfLower(f);
    FilterDependsOnLowerCase(logs, Lower(f), f, lf);
  }
}
