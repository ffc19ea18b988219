/** Values shared by the planner, the scheduler, the simulator and the configuration. */
module Domain {

  datatype Option<+T> = None | Some(value: T)

  /** Nanoseconds since the start of year 1, so that the zero time of the source is the number 0. */
  type Instant = int

  const ZERO_TIME: Instant := 0
  const MINUTE: int := 60_000_000_000
  const HOUR: int := 60 * MINUTE

  datatype PlannedOccurrence = PlannedOccurrence(
    id: string,
    accountKey: string,
    localDate: string,
    periodIndex: nat,
    windowStart: Instant,
    windowEnd: Instant,
    plannedAt: Instant,
    missed: bool,
    missedReason: string)

  ghost predicate Distinct<T>(s: seq<T>) {
    forall i, j :: 0 <= i < j < |s| ==> s[i] != s[j]
  }

  /** How one store write ends: reported and applied, reported as failed and not applied, or reported as
      failed although it was applied. */
  datatype Write = Ok | Lost | Ambiguous

  function Written<T>(before: T, after: T, write: Write): T {
    if write.Lost? then before else after
  }

  // ----- strings.TrimSpace -----

  predicate IsSpace(c: char) {
    || c in "\t\n\r\U{0B}\U{0C} \U{85}\U{A0}\U{1680}\U{2028}\U{2029}\U{202F}\U{205F}\U{3000}"
    || '\U{2000}' <= c <= '\U{200A}'
  }

  function TrimLeft(s: string): string {
    if s != "" && IsSpace(s[0]) then TrimLeft(s[1..]) else s
  }

  function TrimRight(s: string): string {
    if s != "" && IsSpace(s[|s| - 1]) then TrimRight(s[..|s| - 1]) else s
  }

  function TrimSpace(s: string): string {
    TrimRight(TrimLeft(s))
  }

  lemma {:induction false} TrimLeftTrims(s: string)
    ensures TrimLeft(s) == "" || !IsSpace(TrimLeft(s)[0])
  {
    if s != "" && IsSpace(s[0]) { TrimLeftTrims(s[1..]); }
  }

  lemma {:induction false} TrimRightTrims(s: string)
    requires s == "" || !IsSpace(s[0])
    ensures var t := TrimRight(s);
            t == "" || (t[0] == s[0] && !IsSpace(t[|t| - 1]))
  {
    if s != "" && IsSpace(s[|s| - 1]) {
      TrimRightTrims(s[..|s| - 1]);
    }
  }

  ghost predicate AllSpace(s: string) { forall c :: c in s ==> IsSpace(c) }

  lemma {:induction false} TrimLeftStrips(s: string) returns (front: string)
    ensures s == front + TrimLeft(s) && AllSpace(front)
  {
    if s != "" && IsSpace(s[0]) {
      var rest := TrimLeftStrips(s[1..]);
      front := [s[0]] + rest;
    } else {
      front := "";
    }
  }

  lemma {:induction false} TrimRightStrips(s: string) returns (back: string)
    ensures s == TrimRight(s) + back && AllSpace(back)
  {
    if s != "" && IsSpace(s[|s| - 1]) {
      var rest := TrimRightStrips(s[..|s| - 1]);
      back := rest + [s[|s| - 1]];
      assert s == s[..|s| - 1] + [s[|s| - 1]];
    } else {
      back := "";
    }
  }

  /** Trimming takes away only white space, at both ends, and leaves none there. */
  lemma TrimStripsSpace(s: string) returns (front: string, back: string)
    ensures s == front + TrimSpace(s) + back && AllSpace(front) && AllSpace(back)
    ensures var t := TrimSpace(s); t != "" ==> !IsSpace(t[0]) && !IsSpace(t[|t| - 1])
  {
    front := TrimLeftStrips(s);
    back := TrimRightStrips(TrimLeft(s));
    TrimLeftTrims(s);
    TrimRightTrims(TrimLeft(s));
  }

  /** Trimming twice is trimming once, so a trimmed key is a fixed point of every later trim. */
  lemma TrimIsIdempotent(s: string)
    ensures TrimSpace(TrimSpace(s)) == TrimSpace(s)
  {
    TrimLeftTrims(s);
    TrimRightTrims(TrimLeft(s));
  }
}
