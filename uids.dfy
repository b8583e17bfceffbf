/** The `--uids` list parser (cmd/gmail-blade/main.go:197-212). */
module Uids {
  import opened Wrappers
  import opened Text
  import opened Mail

  /** One comma-separated entry, once trimmed, is blank or a 32-bit decimal number. */
  predicate ValidEntry(part: string) {
    TrimSpace(part) == "" || ParseUint32(TrimSpace(part)).Some?
  }

  /** `u` is the number written in entry `parts[k]`. */
  predicate Denotes(parts: seq<string>, k: int, u: UID)
    requires 0 <= k < |parts|
  {
    TrimSpace(parts[k]) != "" && ParseUint32(TrimSpace(parts[k])) == Some(u)
  }

  /**
   * What the parse loop over the entries yields: the set of their numbers, or
   * the first entry (trimmed) that is neither blank nor a number.
   */
  function UidSet(parts: seq<string>): Result<set<UID>, string> {
    if parts == [] then Success({})
    else
      var part := TrimSpace(parts[0]);
      var rest := UidSet(parts[1..]);
      if part == "" then rest
      else match ParseUint32(part)
        case None => Failure(part)
        case Some(v) =>
          if rest.Failure? then rest else Success({v as UID} + rest.value)
  }

  lemma Tail(parts: seq<string>)
    requires parts != []
    ensures forall k :: 1 <= k < |parts| ==> parts[k] == parts[1..][k - 1]
  {
  }

  /** The list is accepted exactly when every entry is blank or a 32-bit number. */
  lemma {:induction false} UidSetAccepts(parts: seq<string>)
    ensures UidSet(parts).Success? <==> forall k :: 0 <= k < |parts| ==> ValidEntry(parts[k])
  {
    if parts != [] {
      UidSetAccepts(parts[1..]);
      Tail(parts);
    }
  }

  /** Some entry of the list denotes `u`. */
  predicate Listed(parts: seq<string>, u: UID) {
    exists k :: 0 <= k < |parts| && Denotes(parts, k, u)
  }

  lemma ListedCons(parts: seq<string>, u: UID)
    requires parts != []
    ensures Listed(parts, u) <==> (Denotes(parts, 0, u) || Listed(parts[1..], u))
  {
    if Listed(parts, u) {
      var k :| 0 <= k < |parts| && Denotes(parts, k, u);
      if k > 0 {
        assert Denotes(parts[1..], k - 1, u);
      }
    }
    if Listed(parts[1..], u) {
      var k :| 0 <= k < |parts[1..]| && Denotes(parts[1..], k, u);
      assert Denotes(parts, k + 1, u);
    }
  }

  /** An accepted list yields exactly the numbers its entries denote, duplicates collapsed. */
  lemma {:induction false} UidSetValues(parts: seq<string>)
    requires UidSet(parts).Success?
    ensures forall u: UID :: u in UidSet(parts).value <==> Listed(parts, u)
  {
    if parts != [] {
      var rest := UidSet(parts[1..]);
      assert rest.Success?;
      UidSetValues(parts[1..]);
      var part := TrimSpace(parts[0]);
      forall u: UID
        ensures u in UidSet(parts).value <==> Listed(parts, u)
      {
        ListedCons(parts, u);
        if part == "" {
          assert !Denotes(parts, 0, u);
        } else {
          var v := ParseUint32(part).value;
          assert UidSet(parts).value == {v as UID} + rest.value;
          assert Denotes(parts, 0, u) <==> u == v;
        }
      }
    }
  }

  /** A rejected list names its first bad entry, trimmed. */
  lemma {:induction false} UidSetRejects(parts: seq<string>)
    requires UidSet(parts).Failure?
    ensures exists k :: 0 <= k < |parts| && (forall j :: 0 <= j < k ==> ValidEntry(parts[j]))
                       && !ValidEntry(parts[k]) && UidSet(parts).error == TrimSpace(parts[k])
  {
    Tail(parts);
    var part := TrimSpace(parts[0]);
    if part != "" && ParseUint32(part).None? {
      assert !ValidEntry(parts[0]);
    } else {
      UidSetRejects(parts[1..]);
      var k :| 0 <= k < |parts[1..]| && (forall j :: 0 <= j < k ==> ValidEntry(parts[1..][j]))
               && !ValidEntry(parts[1..][k]) && UidSet(parts[1..]).error == TrimSpace(parts[1..][k]);
      assert forall j :: 0 <= j < k + 1 ==> ValidEntry(parts[j]);
    }
  }

  /** Adds the numbers gathered so far to the outcome of the entries still to read. */
  function Gathered(so: set<UID>, rest: Result<set<UID>, string>): Result<set<UID>, string> {
    if rest.Success? then Success(so + rest.value) else rest
  }

  /** Reading one more entry, as the parse loop does. */
  lemma UidSetStep(parts: seq<string>, i: nat, uids: set<UID>)
    requires i < |parts|
    ensures var part := TrimSpace(parts[i]);
      Gathered(uids, UidSet(parts[i..])) ==
        if part == "" then Gathered(uids, UidSet(parts[i + 1..]))
        else if ParseUint32(part).None? then Failure(part)
        else Gathered(uids + {ParseUint32(part).value as UID}, UidSet(parts[i + 1..]))
  {
    assert parts[i..][1..] == parts[i + 1..];
    var part := TrimSpace(parts[i]);
    if part != "" && ParseUint32(part).Some? {
      var v := ParseUint32(part).value as UID;
      var rest := UidSet(parts[i + 1..]);
      if rest.Success? {
        assert uids + ({v} + rest.value) == (uids + {v}) + rest.value;
      }
    }
  }

  /** parseUIDs: splits on commas and parses every non-blank entry. */
  method ParseUids(s: string) returns (r: Result<set<UID>, string>)
    ensures r == UidSet(Split(s, ','))
  {
    var parts := Split(s, ',');
    var uids: set<UID> := {};
    assert parts[0..] == parts;
    assert Gathered({}, UidSet(parts)) == UidSet(parts) by {
      if UidSet(parts).Success? {
        assert {} + UidSet(parts).value == UidSet(parts).value;
      }
    }
    for i := 0 to |parts|
      invariant UidSet(parts) == Gathered(uids, UidSet(parts[i..]))
    {
      UidSetStep(parts, i, uids);
      var part := TrimSpace(parts[i]);
      if part == "" {
        continue;
      }
      var uid := ParseUint32(part);
      if uid.None? {
        return Failure(part);
      }
      uids := uids + {uid.value as UID};
    }
    assert parts[|parts|..] == [];
    assert uids + {} == uids;
    r := Success(uids);
  }

  /** A list of blanks and commas selects nothing. */
  lemma BlankListIsEmpty()
    ensures UidSet(Split(" , ,", ',')) == Success({})
  {
    var s := " , ,";
    assert s[1..][0] == ',' && IndexOf(s[1..], ',') == 0;
    assert IndexOf(s, ',') == 1 && s[..1] == " " && s[2..] == " ,";
    var t := " ,";
    assert t[1..][0] == ',' && IndexOf(t[1..], ',') == 0;
    assert IndexOf(t, ',') == 1 && t[..1] == " " && t[2..] == "";
    assert Split(t, ',') == [" "] + Split("", ',') == [" ", ""];
    var parts := Split(s, ',');
    assert parts == [" ", " ", ""];
    assert TrimSpace(" ") == "" && TrimSpace("") == "";
    assert parts[1..] == [" ", ""] && parts[1..][1..] == [""] && parts[1..][1..][1..] == [];
  }

  /** The printed form of a UID is its own trimmed entry and parses back to it. */
  lemma PrintedEntry(u: UID)
    ensures var d := NatToDecimal(u);
      ',' !in d && TrimSpace(d) == d && ParseUint32(d) == Some(u as nat)
  {
    var d := NatToDecimal(u);
    ParseUint32OfDecimal(u);
    assert !IsSpace(d[0]) && !IsSpace(d[|d| - 1]);
    assert ',' !in d by {
      assert forall k :: 0 <= k < |d| ==> IsDigit(d[k]);
    }
  }

  function Printed(us: seq<UID>): (parts: seq<string>)
    ensures |parts| == |us|
  {
    seq(|us|, i requires 0 <= i < |us| => NatToDecimal(us[i]))
  }

  /** The printed entries parse to exactly the listed UIDs. */
  lemma PrintedValues(us: seq<UID>)
    ensures UidSet(Printed(us)) == Success(set i | 0 <= i < |us| :: us[i])
  {
    var parts := Printed(us);
    forall k | 0 <= k < |parts|
      ensures ValidEntry(parts[k])
      ensures forall u: UID :: Denotes(parts, k, u) <==> u == us[k]
    {
      PrintedEntry(us[k]);
    }
    UidSetAccepts(parts);
    UidSetValues(parts);
    var r := UidSet(parts).value;
    var expected := set i | 0 <= i < |us| :: us[i];
    forall u: UID
      ensures u in r <==> u in expected
    {
      if u in r {
        var k :| 0 <= k < |parts| && Denotes(parts, k, u);
      }
      if u in expected {
        var k :| 0 <= k < |us| && us[k] == u;
        assert Denotes(parts, k, u);
      }
    }
    assert r == expected;
  }

  /** UIDs written out in decimal and joined by commas parse back to exactly their set. */
  lemma PrintedListRoundTrip(us: seq<UID>)
    requires |us| > 0
    ensures UidSet(Split(Join(Printed(us), ','), ',')) == Success(set i | 0 <= i < |us| :: us[i])
  {
    var parts := Printed(us);
    forall k | 0 <= k < |parts|
      ensures ',' !in parts[k]
    {
      PrintedEntry(us[k]);
    }
    SplitJoin(parts, ',');
    PrintedValues(us);
  }
}
