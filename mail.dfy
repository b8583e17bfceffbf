/**
 * Fetched messages and the attribute bag a filter condition sees
 * (cmd/gmail-blade/main.go:294-336).
 */
module Mail {

  /** imap.UID, an unsigned 32-bit number. */
  type UID = u: nat | u <= 0xFFFF_FFFF

  datatype Address = Address(name: string, mailbox: string, host: string)

  datatype Envelope = Envelope(
    subject: string,
    from: seq<Address>,
    cc: seq<Address>,
    to: seq<Address>,
    replyTo: seq<Address>)

  /** A message as one FETCH returns it: UID, flags, envelope and the text body sections. */
  datatype Message = Message(uid: UID, flags: seq<string>, envelope: Envelope, body: seq<string>)

  /** imap.FlagSeen */
  const SeenFlag: string := "\\Seen"

  predicate IsSeen(m: Message) {
    SeenFlag in m.flags
  }

  /** The `message` namespace of a condition. */
  datatype Attributes = Attributes(
    from: seq<string>,
    fromName: seq<string>,
    subject: string,
    cc: seq<string>,
    to: seq<string>,
    replyTo: seq<string>,
    body: string)

  /** fmt.Sprintf("%s@%s", mailbox, host) */
  function FormatAddress(a: Address): string {
    a.mailbox + "@" + a.host
  }

  function AddressList(addrs: seq<Address>): seq<string> {
    seq(|addrs|, i requires 0 <= i < |addrs| => FormatAddress(addrs[i]))
  }

  function NameList(addrs: seq<Address>): seq<string> {
    seq(|addrs|, i requires 0 <= i < |addrs| => addrs[i].name)
  }

  /** The body sections one after the other. */
  function Concat(sections: seq<string>): string {
    if sections == [] then "" else sections[0] + Concat(sections[1..])
  }

  /** Concatenation distributes over appending lists of sections. */
  lemma {:induction false} ConcatAppend(a: seq<string>, b: seq<string>)
    ensures Concat(a + b) == Concat(a) + Concat(b)
  {
    if a != [] {
      assert (a + b)[1..] == a[1..] + b;
      ConcatAppend(a[1..], b);
    } else {
      assert a + b == b;
    }
  }

  /** Every section starts in the body right after the sections before it. */
  lemma SectionInBody(sections: seq<string>, k: nat)
    requires k < |sections|
    ensures var start := |Concat(sections[..k])|;
      start + |sections[k]| <= |Concat(sections)|
      && Concat(sections)[start..start + |sections[k]|] == sections[k]
  {
    assert sections == sections[..k] + ([sections[k]] + sections[k + 1..]);
    ConcatAppend(sections[..k], [sections[k]] + sections[k + 1..]);
  }

  /** The attribute bag of a message, in envelope order and of envelope length. */
  function AttributesOf(m: Message): Attributes {
    Attributes(
      AddressList(m.envelope.from),
      NameList(m.envelope.from),
      m.envelope.subject,
      AddressList(m.envelope.cc),
      AddressList(m.envelope.to),
      AddressList(m.envelope.replyTo),
      Concat(m.body))
  }

  /** The from loop: the addresses as mailbox@host and the display names, both in envelope order. */
  method FromLists(addrs: seq<Address>) returns (from: seq<string>, names: seq<string>)
    ensures |from| == |addrs| && |names| == |addrs|
    ensures forall i :: 0 <= i < |addrs| ==> from[i] == addrs[i].mailbox + "@" + addrs[i].host
    ensures forall i :: 0 <= i < |addrs| ==> names[i] == addrs[i].name
  {
    from, names := [], [];
    for i := 0 to |addrs|
      invariant |from| == i && |names| == i
      invariant forall j :: 0 <= j < i ==> from[j] == FormatAddress(addrs[j]) && names[j] == addrs[j].name
    {
      from := from + [FormatAddress(addrs[i])];
      names := names + [addrs[i].name];
    }
  }

  /** The cc, to and replyTo loops: the addresses as mailbox@host in envelope order. */
  method FormatAddresses(addrs: seq<Address>) returns (r: seq<string>)
    ensures |r| == |addrs|
    ensures forall i :: 0 <= i < |addrs| ==> r[i] == addrs[i].mailbox + "@" + addrs[i].host
  {
    r := [];
    for i := 0 to |addrs|
      invariant |r| == i
      invariant forall j :: 0 <= j < i ==> r[j] == FormatAddress(addrs[j])
    {
      r := r + [FormatAddress(addrs[i])];
    }
  }

  /** The body loop: `body += string(b.Bytes)` over the sections. */
  method JoinBody(sections: seq<string>) returns (body: string)
    ensures body == Concat(sections)
  {
    body := "";
    for i := 0 to |sections|
      invariant body == Concat(sections[..i])
    {
      ConcatAppend(sections[..i], [sections[i]]);
      assert sections[..i + 1] == sections[..i] + [sections[i]];
      body := body + sections[i];
    }
    assert sections[..|sections|] == sections;
  }

  /** Builds the attribute bag of an unseen message. */
  method Normalise(m: Message) returns (a: Attributes)
    ensures a == AttributesOf(m)
  {
    var from, fromName := FromLists(m.envelope.from);
    var cc := FormatAddresses(m.envelope.cc);
    var to := FormatAddresses(m.envelope.to);
    var replyTo := FormatAddresses(m.envelope.replyTo);
    var body := JoinBody(m.body);
    a := Attributes(from, fromName, m.envelope.subject, cc, to, replyTo, body);
  }
}
