/** The Bedrock "unconnected pong" reply: how `Ping.Check` turns the payload
    into a `Pong` once the network call has returned, and `Pong.Pretty`.

    The payload is matched against
      (MCPE|MCEE);([^;]+;){11}(.+)
    with Go's RE2 semantics (leftmost match; `[^;]` also matches a newline,
    `.` does not), and six of the captures are then decoded as unsigned
    integers by `encoding/json` through their `,string` tags. */
module Minecraft {
  import opened Wrappers
  import opened Text
  import opened Decimal

  type uint16 = x: int | 0 <= x < 0x1_0000
  type uint32 = x: int | 0 <= x < 0x1_0000_0000
  type uint64 = x: int | 0 <= x < 0x1_0000_0000_0000_0000

  datatype Pong = Pong(
    Edition: string,
    ServerName: string,
    ProtocolVersion: string,
    VersionName: string,
    PlayerCount: uint32,
    MaxPlayerCount: uint32,
    ServerUniqueID: uint64,
    WorldName: string,
    GameMode: string,
    GameModeNumeric: uint32,
    PortIPv4: uint16,
    PortIPv6: uint16,
    Remaining: string)

  datatype ParseError =
    | UnexpectedResponse(data: string)  // the pattern does not occur in the payload
    | InvalidNumericField               // encoding/json rejected one of the integer fields

  /** The captures of one match: the edition, the eleven `;`-terminated fields, the tail. */
  datatype Captures = Captures(edition: string, fields: seq<string>, remaining: string)

  /** What `[^;]+` accepts. */
  predicate FieldText(f: string) { f != [] && ';' !in f }

  /** The fields, each followed by `;`. */
  function Terminated(fs: seq<string>): string {
    if fs == [] then "" else fs[0] + ";" + Terminated(fs[1..])
  }

  /** The text a match covers. */
  function MatchText(c: Captures): string {
    c.edition + ";" + Terminated(c.fields) + c.remaining
  }

  predicate IsEdition(e: string) { e == "MCPE" || e == "MCEE" }

  /** Where a greedy `.+` starting at `i` stops: the next newline or the end. */
  function LineEnd(s: string, i: nat): (j: nat)
    requires i <= |s|
    ensures i <= j <= |s|
    ensures forall k :: i <= k < j ==> s[k] != '\n'
    ensures j < |s| ==> s[j] == '\n'
  {
    match IndexFrom(s, '\n', i)
    case None => |s|
    case Some(j) => j
  }

  /** `n` consecutive groups `[^;]+;` starting at `i`: their contents and the
      position just after the last `;`. A `[^;]+` can only end right before
      the next `;`, so there is at most one way to match. */
  function Fields(s: string, i: nat, n: nat): (r: Option<(seq<string>, nat)>)
    requires i <= |s|
    ensures r.Some? ==> |r.value.0| == n && i <= r.value.1 <= |s|
    ensures r.Some? ==> forall k :: 0 <= k < n ==> FieldText(r.value.0[k])
    decreases |s| - i
  {
    if n == 0 then Some(([], i))
    else match IndexFrom(s, ';', i)
      case None => None
      case Some(j) =>
        if j == i then None
        else match Fields(s, j + 1, n - 1)
          case None => None
          case Some(rest) => Some(([s[i..j]] + rest.0, rest.1))
  }

  /** What Fields matched is exactly its fields, each followed by `;`. */
  lemma {:induction false} FieldsText(s: string, i: nat, n: nat)
    requires i <= |s| && Fields(s, i, n).Some?
    ensures s[i..Fields(s, i, n).value.1] == Terminated(Fields(s, i, n).value.0)
    decreases n
  {
    if n > 0 {
      FieldsUnfold(s, i, n);
      var j := IndexFrom(s, ';', i).value;
      var rest := Fields(s, j + 1, n - 1).value;
      FieldsText(s, j + 1, n - 1);
      FieldThenRest(s, i, j, rest.1, rest.0);
    }
  }

  /** A successful Fields of `n > 0` groups: the first group ends at the next
      `;`, and Fields matched the rest from just after it. */
  lemma FieldsUnfold(s: string, i: nat, n: nat)
    requires i <= |s| && n > 0 && Fields(s, i, n).Some?
    ensures IndexFrom(s, ';', i).Some?
    ensures var j := IndexFrom(s, ';', i).value;
      && i < j < |s| && Fields(s, j + 1, n - 1).Some?
      && Fields(s, i, n).value ==
         ([s[i..j]] + Fields(s, j + 1, n - 1).value.0, Fields(s, j + 1, n - 1).value.1)
  {
  }

  /** A field ended by the `;` at `j`, then a run of fields up to `e`, is
      the text of all of them. */
  lemma FieldThenRest(s: string, i: nat, j: nat, e: nat, fs: seq<string>)
    requires i <= j < e <= |s| && s[j] == ';' && s[j + 1..e] == Terminated(fs)
    ensures s[i..e] == Terminated([s[i..j]] + fs)
  {
    var f := s[i..j];
    assert ([f] + fs)[1..] == fs;
    assert Terminated([f] + fs) == f + ";" + Terminated(fs);
    assert s[i..e] == f + ";" + s[j + 1..e];
  }

  /** The number of `[^;]+;` groups between the edition and the tail. */
  const FieldCount: nat := 11

  /** `(MCPE|MCEE);` at position `p`. */
  predicate Header(s: string, p: nat) {
    p + 5 <= |s| && IsEdition(s[p..p + 4]) && s[p + 4] == ';'
  }

  /** The match of the pattern that starts exactly at position `p`, if any. */
  function MatchAt(s: string, p: nat): (r: Option<Captures>)
    ensures r.Some? ==> p + 5 <= |s| && s[p] == 'M' && IsEdition(r.value.edition)
    ensures r.Some? ==> |r.value.fields| == 11 && forall k :: 0 <= k < 11 ==> FieldText(r.value.fields[k])
    ensures r.Some? ==> r.value.remaining != [] && '\n' !in r.value.remaining
  {
    if Header(s, p) then
      match Fields(s, p + 5, FieldCount)
      case None => None
      case Some(fe) =>
        var t := LineEnd(s, fe.1);
        if t == fe.1 then None
        else
          assert s[p] == s[p..p + 4][0];
          assert forall k :: 0 <= k < t - fe.1 ==> s[fe.1..t][k] == s[fe.1 + k];
          Some(Captures(s[p..p + 4], fe.0, s[fe.1..t]))
    else None
  }

  lemma SliceSplit(s: string, i: nat, j: nat, k: nat)
    requires i <= j <= k <= |s|
    ensures s[i..k] == s[i..j] + s[j..k]
  {
  }

  /** The text of a match assembled from the positions where its parts end. */
  lemma CapturesText(s: string, p: nat, fs: seq<string>, e: nat, t: nat)
    requires p + 5 <= e <= t <= |s| && s[p + 4] == ';'
    requires s[p + 5..e] == Terminated(fs)
    ensures s[p..t] == MatchText(Captures(s[p..p + 4], fs, s[e..t]))
  {
    SliceSplit(s, p, p + 4, t);
    SliceSplit(s, p + 4, p + 5, t);
    SliceSplit(s, p + 5, e, t);
    assert s[p + 4..p + 5] == ";";
  }

  /** How a match found at `p` is made up. */
  lemma MatchAtParts(s: string, p: nat)
    requires MatchAt(s, p).Some?
    ensures Header(s, p) && p + 5 <= |s| && s[p + 4] == ';' && Fields(s, p + 5, FieldCount).Some?
    ensures var fe := Fields(s, p + 5, FieldCount).value;
      MatchAt(s, p).value == Captures(s[p..p + 4], fe.0, s[fe.1..LineEnd(s, fe.1)])
  {
  }

  /** A match covers its edition, `;`, its fields each followed by `;`, and
      its tail, which runs to the next newline or the end of the payload. */
  lemma MatchAtText(s: string, p: nat)
    requires MatchAt(s, p).Some?
    ensures var m := MatchText(MatchAt(s, p).value);
      && p + |m| <= |s| && s[p..p + |m|] == m
      && (p + |m| < |s| ==> s[p + |m|] == '\n')
  {
    MatchAtParts(s, p);
    var fe := Fields(s, p + 5, FieldCount).value;
    FieldsText(s, p + 5, FieldCount);
    var t := LineEnd(s, fe.1);
    CapturesText(s, p, fe.0, fe.1, t);
  }

  /** The leftmost match at or after `from`, as RE2's `FindStringSubmatch` reports it. */
  function Leftmost(s: string, from: nat): (r: Option<(nat, Captures)>)
    requires from <= |s|
    ensures r.Some? ==> from <= r.value.0 <= |s| && MatchAt(s, r.value.0) == Some(r.value.1)
    decreases |s| - from
  {
    match MatchAt(s, from)
    case Some(c) => Some((from, c))
    case None => if from == |s| then None else Leftmost(s, from + 1)
  }

  /** No match can start in the last four characters or beyond. */
  lemma NoMatchNearEnd(s: string, q: nat)
    requires q + 5 > |s|
    ensures MatchAt(s, q).None?
  {
  }

  /** Leftmost finds the first position where the pattern matches, and finds
      nothing only when it matches nowhere from `from` on. */
  lemma {:induction false} LeftmostFirst(s: string, from: nat)
    requires from <= |s|
    ensures Leftmost(s, from).Some? ==> forall q :: from <= q < Leftmost(s, from).value.0 ==> MatchAt(s, q).None?
    ensures Leftmost(s, from).None? ==> forall q: nat :: from <= q ==> MatchAt(s, q).None?
    decreases |s| - from
  {
    if MatchAt(s, from).None? {
      if from == |s| {
        forall q: nat | from <= q ensures MatchAt(s, q).None? {
          NoMatchNearEnd(s, q);
        }
      } else {
        var l := Leftmost(s, from + 1);
        assert Leftmost(s, from) == l;
        LeftmostFirst(s, from + 1);
        if l.Some? {
          forall q | from <= q < l.value.0 ensures MatchAt(s, q).None? {
            if q > from {
              assert from + 1 <= q;
            }
          }
        } else {
          forall q: nat | from <= q ensures MatchAt(s, q).None? {
            if q > from {
              assert from + 1 <= q;
            }
          }
        }
      }
    }
  }

  /** An integer field through `encoding/json`'s `,string` option: the quoted
      literal `null` leaves the field at zero; otherwise the text must be
      ASCII digits whose value is below the field's bound. */
  function UintField(v: string, bound: nat): (r: Option<nat>)
    ensures r.Some? ==> r.value < bound || (v == "null" && r.value == 0)
    ensures r.Some? ==> v == "null" || (v != [] && AllDigits(v) && r.value == Value(v))
    ensures v != [] && AllDigits(v) ==> (r.Some? <==> Value(v) < bound)
  {
    if v == "null" then Some(0)
    else if v != [] && AllDigits(v) && Value(v) < bound then Some(Value(v))
    else None
  }

  const Bound16: nat := 0x1_0000
  const Bound32: nat := 0x1_0000_0000
  const Bound64: nat := 0x1_0000_0000_0000_0000

  /** The six integer captures decoded at their widths, in the order of the pattern's groups. */
  function DecodeCaptures(c: Captures): (r: Result<Pong, ParseError>)
    requires |c.fields| == 11
    ensures r.Success? <==>
      && UintField(c.fields[3], Bound32).Some? && UintField(c.fields[4], Bound32).Some?
      && UintField(c.fields[5], Bound64).Some? && UintField(c.fields[8], Bound32).Some?
      && UintField(c.fields[9], Bound16).Some? && UintField(c.fields[10], Bound16).Some?
    ensures r.Failure? ==> r.error == InvalidNumericField
    ensures r.Success? ==> r.value.Edition == c.edition && r.value.Remaining == c.remaining
    ensures r.Success? ==>
      && r.value.ServerName == c.fields[0] && r.value.ProtocolVersion == c.fields[1]
      && r.value.VersionName == c.fields[2] && r.value.WorldName == c.fields[6]
      && r.value.GameMode == c.fields[7]
  {
    var players := UintField(c.fields[3], Bound32);
    var maxPlayers := UintField(c.fields[4], Bound32);
    var uniqueID := UintField(c.fields[5], Bound64);
    var modeNumeric := UintField(c.fields[8], Bound32);
    var port4 := UintField(c.fields[9], Bound16);
    var port6 := UintField(c.fields[10], Bound16);
    if players.Some? && maxPlayers.Some? && uniqueID.Some? && modeNumeric.Some? && port4.Some? && port6.Some? then
      Success(Pong(c.edition, c.fields[0], c.fields[1], c.fields[2],
                   players.value, maxPlayers.value, uniqueID.value,
                   c.fields[6], c.fields[7], modeNumeric.value,
                   port4.value, port6.value, c.remaining))
    else Failure(InvalidNumericField)
  }

  /** A `Pong` the parser can produce: a known edition, non-empty text fields
      without `;`, and a non-empty tail without a newline. */
  predicate WellFormed(p: Pong) {
    && IsEdition(p.Edition)
    && FieldText(p.ServerName) && FieldText(p.ProtocolVersion) && FieldText(p.VersionName)
    && FieldText(p.WorldName) && FieldText(p.GameMode)
    && p.Remaining != [] && '\n' !in p.Remaining
  }

  /** `Ping.Check` after the network call: the payload's leftmost match, decoded. */
  function Parse(data: string): (r: Result<Pong, ParseError>)
    ensures r.Success? ==> WellFormed(r.value)
    ensures r == Failure(UnexpectedResponse(data)) <==> forall q: nat :: MatchAt(data, q).None?
    ensures r.Failure? ==> r == Failure(UnexpectedResponse(data)) || r == Failure(InvalidNumericField)
  {
    LeftmostFirst(data, 0);
    match Leftmost(data, 0)
    case None => Failure(UnexpectedResponse(data))
    case Some(m) => DecodeCaptures(m.1)
  }

  // ---------------------------------------------------------------------
  // Round trip

  /** The eleven fields after the edition, as a server writes them. */
  function WireFields(p: Pong): seq<string> {
    [p.ServerName, p.ProtocolVersion, p.VersionName,
     Format(p.PlayerCount), Format(p.MaxPlayerCount), Format(p.ServerUniqueID),
     p.WorldName, p.GameMode, Format(p.GameModeNumeric),
     Format(p.PortIPv4), Format(p.PortIPv6)]
  }

  /** The payload a server sends for `p`. */
  function Serialize(p: Pong): string {
    p.Edition + ";" + Terminated(WireFields(p)) + p.Remaining
  }

  lemma IndexFromIs(s: string, c: char, i: nat, j: nat)
    requires i <= j < |s| && s[j] == c
    requires forall k :: i <= k < j ==> s[k] != c
    ensures IndexFrom(s, c, i) == Some(j)
  {
  }

  /** The first of a run of `;`-terminated fields, as found in `s` at `i`. */
  lemma TerminatedHead(s: string, i: nat, fs: seq<string>)
    requires fs != [] && FieldText(fs[0])
    requires i + |Terminated(fs)| <= |s| && s[i..i + |Terminated(fs)|] == Terminated(fs)
    ensures var j := i + |fs[0]|;
      && j < |s| && s[i..j] == fs[0]
      && IndexFrom(s, ';', i) == Some(j)
      && j + 1 + |Terminated(fs[1..])| == i + |Terminated(fs)|
      && s[j + 1..i + |Terminated(fs)|] == Terminated(fs[1..])
  {
    var f := fs[0];
    var T := Terminated(fs);
    assert T == f + ";" + Terminated(fs[1..]);
    var j := i + |f|;
    assert s[j] == T[|f|];
    forall k | i <= k < j ensures s[k] != ';' {
      assert s[k] == T[k - i] == f[k - i];
    }
    assert s[i..j] == T[..|f|];
    assert s[j + 1..i + |T|] == T[|f| + 1..];
    IndexFromIs(s, ';', i, j);
  }

  /** One step of Fields: a non-empty field up to the next `;`, then the rest. */
  lemma FieldsStep(s: string, i: nat, fs: seq<string>, j: nat, e: nat)
    requires fs != [] && i < j < |s| && IndexFrom(s, ';', i) == Some(j) && s[i..j] == fs[0]
    requires Fields(s, j + 1, |fs[1..]|) == Some((fs[1..], e))
    ensures Fields(s, i, |fs|) == Some((fs, e))
  {
    assert |fs[1..]| == |fs| - 1;
    assert [s[i..j]] + fs[1..] == fs;
  }

  /** Fields reads back any run of `;`-terminated fields. */
  lemma {:induction false} FieldsOfTerminated(s: string, i: nat, fs: seq<string>)
    requires forall k :: 0 <= k < |fs| ==> FieldText(fs[k])
    requires i + |Terminated(fs)| <= |s| && s[i..i + |Terminated(fs)|] == Terminated(fs)
    ensures Fields(s, i, |fs|) == Some((fs, i + |Terminated(fs)|))
    decreases |fs|
  {
    if fs != [] {
      TerminatedHead(s, i, fs);
      var j := i + |fs[0]|;
      FieldsOfTerminated(s, j + 1, fs[1..]);
      FieldsStep(s, i, fs, j, j + 1 + |Terminated(fs[1..])|);
    }
  }

  lemma FormatIsField(n: nat, bound: nat)
    requires n < bound
    ensures FieldText(Format(n))
    ensures UintField(Format(n), bound) == Some(n)
  {
    assert Format(n) != "null" by { assert IsDigit(Format(n)[0]); }
  }

  /** The integer fields of a well-formed `Pong` are written as plain digit strings. */
  lemma WireFieldsAreFields(p: Pong)
    requires WellFormed(p)
    ensures |WireFields(p)| == FieldCount
    ensures forall k :: 0 <= k < |WireFields(p)| ==> FieldText(WireFields(p)[k])
  {
    FormatIsField(p.PlayerCount, Bound32);
    FormatIsField(p.MaxPlayerCount, Bound32);
    FormatIsField(p.ServerUniqueID, Bound64);
    FormatIsField(p.GameModeNumeric, Bound32);
    FormatIsField(p.PortIPv4, Bound16);
    FormatIsField(p.PortIPv6, Bound16);
  }

  /** Decoding the captures of a serialised `Pong` gives it back. */
  lemma DecodeWireFields(p: Pong)
    requires WellFormed(p)
    ensures DecodeCaptures(Captures(p.Edition, WireFields(p), p.Remaining)) == Success(p)
  {
    FormatIsField(p.PlayerCount, Bound32);
    FormatIsField(p.MaxPlayerCount, Bound32);
    FormatIsField(p.ServerUniqueID, Bound64);
    FormatIsField(p.GameModeNumeric, Bound32);
    FormatIsField(p.PortIPv4, Bound16);
    FormatIsField(p.PortIPv6, Bound16);
  }

  /** MatchAt once the header and the fields (read from `f`, just after the header) are known. */
  lemma MatchAtFrom(s: string, p: nat, f: nat, fe: (seq<string>, nat))
    requires f == p + 5 && Header(s, p) && Fields(s, f, FieldCount) == Some(fe)
    ensures fe.1 <= |s|
    ensures MatchAt(s, p) ==
      if LineEnd(s, fe.1) == fe.1 then None
      else Some(Captures(s[p..p + 4], fe.0, s[fe.1..LineEnd(s, fe.1)]))
  {
  }

  /** A greedy `.+` over a newline-free tail runs to the end. */
  lemma LineEndOfTail(s: string, e: nat)
    requires e <= |s| && '\n' !in s[e..]
    ensures LineEnd(s, e) == |s|
  {
    forall k | e <= k < |s| ensures s[k] != '\n' {
      assert s[k] == s[e..][k - e];
    }
  }

  lemma AssembledHeader(c: Captures)
    requires IsEdition(c.edition)
    ensures Header(MatchText(c), 0) && MatchText(c)[0..4] == c.edition
  {
    var s := MatchText(c);
    assert s[0..4] == c.edition && s[4] == ';';
  }

  lemma AssembledFields(c: Captures)
    requires IsEdition(c.edition)
    requires forall k :: 0 <= k < |c.fields| ==> FieldText(c.fields[k])
    ensures Fields(MatchText(c), 5, |c.fields|) == Some((c.fields, 5 + |Terminated(c.fields)|))
  {
    var s := MatchText(c);
    var t := Terminated(c.fields);
    assert s[5..5 + |t|] == t;
    FieldsOfTerminated(s, 5, c.fields);
  }

  lemma AssembledTail(c: Captures)
    requires IsEdition(c.edition) && '\n' !in c.remaining
    ensures var s := MatchText(c); var e := 5 + |Terminated(c.fields)|;
      e <= |s| && LineEnd(s, e) == |s| && s[e..|s|] == c.remaining
  {
    var s := MatchText(c);
    var e := 5 + |Terminated(c.fields)|;
    assert s[e..] == c.remaining;
    LineEndOfTail(s, e);
  }

  /** The text of a match, assembled from well-formed captures, matches at its start. */
  lemma AssembledMatches(c: Captures)
    requires IsEdition(c.edition) && |c.fields| == FieldCount
    requires forall k :: 0 <= k < |c.fields| ==> FieldText(c.fields[k])
    requires c.remaining != [] && '\n' !in c.remaining
    ensures MatchAt(MatchText(c), 0) == Some(c)
  {
    AssembledHeader(c);
    AssembledFields(c);
    AssembledTail(c);
    MatchAtFrom(MatchText(c), 0, 5, (c.fields, 5 + |Terminated(c.fields)|));
  }

  /** A serialised `Pong` matches at its first character. */
  lemma SerializeMatches(p: Pong)
    requires WellFormed(p)
    ensures MatchAt(Serialize(p), 0) == Some(Captures(p.Edition, WireFields(p), p.Remaining))
  {
    WireFieldsAreFields(p);
    AssembledMatches(Captures(p.Edition, WireFields(p), p.Remaining));
  }

  /** Parsing what a server sends for a well-formed `Pong` gives back that `Pong`. */
  lemma ParseSerialize(p: Pong)
    requires WellFormed(p)
    ensures Parse(Serialize(p)) == Success(p)
  {
    SerializeMatches(p);
    DecodeWireFields(p);
  }

  // ---------------------------------------------------------------------
  // The match is unanchored

  /** Whatever precedes the leftmost position where the pattern matches is
      ignored: the result is the decoding of that match. */
  lemma {:induction false} ParseIgnoresPrefix(data: string, q: nat)
    requires MatchAt(data, q).Some?
    requires forall k: nat :: k < q ==> MatchAt(data, k).None?
    ensures Parse(data) == DecodeCaptures(MatchAt(data, q).value)
  {
    var l := Leftmost(data, 0);
    LeftmostFirst(data, 0);
    assert l.Some?;
    var p := l.value.0;
    assert MatchAt(data, p).Some?;
    assert !(p < q);
    assert !(q < p);
    ParseOfLeftmost(data);
  }

  /** Parse decodes the leftmost match, when there is one. */
  lemma ParseOfLeftmost(data: string)
    ensures Leftmost(data, 0).Some? ==> Parse(data) == DecodeCaptures(Leftmost(data, 0).value.1)
  {
  }

  // ---------------------------------------------------------------------
  // Too few fields

  lemma {:induction false} CountTerminated(fs: seq<string>)
    requires forall k :: 0 <= k < |fs| ==> FieldText(fs[k])
    ensures Count(Terminated(fs), ';') == |fs|
  {
    if fs != [] {
      CountTerminated(fs[1..]);
      CountNone(fs[0], ';');
      CountAppend(fs[0], ";", ';');
      CountAppend(fs[0] + ";", Terminated(fs[1..]), ';');
    }
  }

  /** A match's own `;`: one after the edition, one after each field, and those of its tail. */
  lemma MatchTextCount(c: Captures)
    requires IsEdition(c.edition)
    requires forall k :: 0 <= k < |c.fields| ==> FieldText(c.fields[k])
    ensures Count(MatchText(c), ';') == |c.fields| + 1 + Count(c.remaining, ';')
  {
    CountNone(c.edition, ';');
    CountTerminated(c.fields);
    CountAppend(c.edition, ";", ';');
    CountAppend(c.edition + ";", Terminated(c.fields), ';');
    CountAppend(c.edition + ";" + Terminated(c.fields), c.remaining, ';');
  }

  /** The payload around a match: what precedes it, the match, what follows it. */
  lemma MatchSplitsPayload(s: string, p: nat)
    requires MatchAt(s, p).Some?
    ensures var m := MatchText(MatchAt(s, p).value);
      && p + |m| <= |s| && s == s[..p] + m + s[p + |m|..]
      && Count(s, ';') == Count(s[..p], ';') + Count(m, ';') + Count(s[p + |m|..], ';')
  {
    var m := MatchText(MatchAt(s, p).value);
    MatchAtText(s, p);
    assert s == s[..p] + m + s[p + |m|..];
    CountAppend(s[..p], m, ';');
    CountAppend(s[..p] + m, s[p + |m|..], ';');
  }

  /** A match needs twelve `;` (one after the edition, one after each field). */
  lemma MatchNeedsTwelveSemicolons(s: string, p: nat)
    requires MatchAt(s, p).Some?
    ensures Count(s, ';') >= 12
  {
    MatchSplitsPayload(s, p);
    MatchTextCount(MatchAt(s, p).value);
  }

  /** A payload with fewer than twelve `;` (for instance eleven `;`-separated
      fields and nothing after them) is an unexpected response. */
  lemma FewSemicolonsRejected(data: string)
    requires Count(data, ';') < 12
    ensures Parse(data) == Failure(UnexpectedResponse(data))
  {
    forall q: nat ensures MatchAt(data, q).None? {
      if MatchAt(data, q).Some? {
        MatchNeedsTwelveSemicolons(data, q);
      }
    }
  }

  /** The last character of a concatenation. */
  lemma LastOfAppend(a: string, b: string)
    requires a + b != []
    ensures (a + b)[|a + b| - 1] == if b == [] then a[|a| - 1] else b[|b| - 1]
  {
  }

  /** With at most twelve `;`, a match leaves no `;` after its twelfth. */
  lemma NoSemicolonAfterMatch(data: string, q: nat)
    requires Count(data, ';') <= 12 && MatchAt(data, q).Some?
    ensures var c := MatchAt(data, q).value;
      && ';' !in c.remaining
      && forall k :: q + |MatchText(c)| <= k < |data| ==> data[k] != ';'
  {
    var c := MatchAt(data, q).value;
    var e := q + |MatchText(c)|;
    MatchSplitsPayload(data, q);
    MatchTextCount(c);
    CountZero(c.remaining, ';');
    CountZero(data[e..], ';');
    forall k | e <= k < |data| ensures data[k] != ';' {
      assert data[k] == data[e..][k - e];
    }
  }

  /** The tail `(.+)` must follow the twelfth `;`: a payload that ends with its
      twelfth `;` is an unexpected response. The example reply in the protocol
      description (minecraft.go:24), which stops right after the IPv6 port's
      `;`, is such a payload. */
  lemma NothingAfterLastFieldRejected(data: string)
    requires Count(data, ';') <= 12
    requires data != [] && data[|data| - 1] == ';'
    ensures Parse(data) == Failure(UnexpectedResponse(data))
  {
    forall q: nat ensures MatchAt(data, q).None? {
      MatchLeavesLastChar(data, q);
    }
  }

  /** A match ends with a tail holding no `;`, and nothing after it holds one
      either, so a payload with a match does not end in `;`. */
  lemma MatchLeavesLastChar(data: string, q: nat)
    requires Count(data, ';') <= 12 && data != []
    ensures MatchAt(data, q).Some? ==> data[|data| - 1] != ';'
  {
    if MatchAt(data, q).Some? {
      var c := MatchAt(data, q).value;
      var m := MatchText(c);
      NoSemicolonAfterMatch(data, q);
      MatchSplitsPayload(data, q);
      var post := data[q + |m|..];
      LastOfAppend(data[..q] + m, post);
      LastOfAppend(c.edition + ";" + Terminated(c.fields), c.remaining);
    }
  }

  // ---------------------------------------------------------------------
  // Pretty

  /** The lines `Pong.Pretty` prints, in order. */
  function PrettyLines(p: Pong): seq<string> {
    [ "Edition: " + p.Edition,
      "Version: " + p.VersionName,
      "ServerName: " + p.ServerName,
      "WorldName: " + p.WorldName,
      "Players: " + Format(p.PlayerCount) + "/" + Format(p.MaxPlayerCount),
      "GameMode: " + p.GameMode + " (" + Format(p.GameModeNumeric) + ")",
      "Port: " + Format(p.PortIPv4) + " (IPv4), " + Format(p.PortIPv6) + " (IPv6)" ]
  }

  /** `Pong.Pretty`: the template between two newlines, trimmed; the trim
      only removes those two newlines. */
  function Pretty(p: Pong): (r: string)
    ensures r == Join(PrettyLines(p), "\n")
  {
    var body := Join(PrettyLines(p), "\n");
    JoinFirst(PrettyLines(p), "\n");
    JoinLast(PrettyLines(p), "\n");
    TrimFramed(body, GoSpace, '\n');
    TrimSpace("\n" + body + "\n")
  }

  /** The players line holds `count/max`, and both numbers read back. */
  lemma PrettyReportsPlayers(p: Pong)
    ensures PrettyLines(p)[4] == "Players: " + Format(p.PlayerCount) + "/" + Format(p.MaxPlayerCount)
    ensures Split(PrettyLines(p)[4][9..], '/') == [Format(p.PlayerCount), Format(p.MaxPlayerCount)]
    ensures Value(Format(p.PlayerCount)) == p.PlayerCount && Value(Format(p.MaxPlayerCount)) == p.MaxPlayerCount
  {
    var a := Format(p.PlayerCount);
    var b := Format(p.MaxPlayerCount);
    assert PrettyLines(p)[4][9..] == a + "/" + b;
    assert '/' !in a by { assert forall k :: 0 <= k < |a| ==> IsDigit(a[k]); }
    assert '/' !in b by { assert forall k :: 0 <= k < |b| ==> IsDigit(b[k]); }
    SplitPair(a, b, '/');
  }

  /** Two texts without `c`, joined by `c`, split back into the two. */
  lemma SplitPair(a: string, b: string, c: char)
    requires c !in a && c !in b
    ensures Split(a + [c] + b, c) == [a, b]
  {
    var t := a + [c] + b;
    assert t[|a|] == c && t[..|a|] == a && t[|a| + 1..] == b;
    assert IndexOf(t, c) == Some(|a|);
    assert IndexOf(b, c) == None;
  }

  /** The port line splits at its spaces into the two labelled ports, and
      both port numbers read back from their words. */
  lemma PrettyReportsPorts(p: Pong)
    ensures var words := Split(PrettyLines(p)[6], ' ');
      && |words| == 5
      && words[0] == "Port:" && words[2] == "(IPv4)," && words[4] == "(IPv6)"
      && AllDigits(words[1]) && Value(words[1]) == p.PortIPv4
      && AllDigits(words[3]) && Value(words[3]) == p.PortIPv6
  {
    var a := Format(p.PortIPv4);
    var b := Format(p.PortIPv6);
    NoSpaceInDigits(a);
    NoSpaceInDigits(b);
    assert PrettyLines(p)[6] == "Port: " + a + " (IPv4), " + b + " (IPv6)";
    PortLineSplit(PrettyLines(p)[6], a, b);
  }

  /** The port template with two space-free numbers splits into five words. */
  lemma {:induction false} PortLineSplit(line: string, a: string, b: string)
    requires line == "Port: " + a + " (IPv4), " + b + " (IPv6)"
    requires ' ' !in a && ' ' !in b
    ensures Split(line, ' ') == ["Port:", a, "(IPv4),", b, "(IPv6)"]
  {
    assert line == "Port:" + " " + (a + " " + ("(IPv4)," + " " + (b + " " + "(IPv6)")));
    FiveWords("Port:", a, "(IPv4),", b, "(IPv6)");
  }

  /** Five space-free words joined by single spaces split back into them. */
  lemma {:induction false} FiveWords(w0: string, w1: string, w2: string, w3: string, w4: string)
    requires ' ' !in w0 && ' ' !in w1 && ' ' !in w2 && ' ' !in w3 && ' ' !in w4
    ensures Split(w0 + " " + (w1 + " " + (w2 + " " + (w3 + " " + w4))), ' ') == [w0, w1, w2, w3, w4]
  {
    var parts := [w0, w1, w2, w3, w4];
    assert parts[1..][1..] == parts[2..] && parts[2..][1..] == parts[3..] && parts[3..][1..] == parts[4..];
    assert Join(parts[4..], " ") == w4;
    assert Join(parts[3..], " ") == w3 + " " + w4;
    assert Join(parts[2..], " ") == w2 + " " + (w3 + " " + w4);
    assert Join(parts[1..], " ") == w1 + " " + (w2 + " " + (w3 + " " + w4));
    JoinSplit(parts, ' ');
  }

  /** Digits hold no space. */
  lemma {:induction false} NoSpaceInDigits(d: string)
    requires AllDigits(d)
    ensures ' ' !in d
  {
    assert forall k :: 0 <= k < |d| ==> IsDigit(d[k]);
  }

}
