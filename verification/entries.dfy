/**
 * Program entry points: the 4-byte ABI selector, its big-endian word value, the
 * `AbstractEntry` record and the lookup of an entry by name.
 */
module Entries {
  import opened Common
  import opened AsmLang

  /** A method selector, `[u8; 4]`. */
  datatype Selector = Selector(b0: u8, b1: u8, b2: u8, b3: u8)

  /** `u32::from_be_bytes(selector)`, widened to a machine word. */
  function SelectorWord(s: Selector): (w: nat)
    ensures w < TwoTo32
  {
    ((s.b0 as nat * 256 + s.b1 as nat) * 256 + s.b2 as nat) * 256 + s.b3 as nat
  }

  /** `u32::to_be_bytes`: the four bytes of a 32-bit word, most significant first. */
  function SelectorOfWord(w: nat): Selector
    requires w < TwoTo32
  {
    Selector((w / 0x100_0000) as u8, (w / 0x1_0000 % 256) as u8, (w / 256 % 256) as u8, (w % 256) as u8)
  }

  /** Reading a selector as a big-endian word loses nothing. */
  lemma SelectorWordRoundTrip(s: Selector)
    ensures SelectorOfWord(SelectorWord(s)) == s
  {
    var hi := s.b0 as nat * 256 + s.b1 as nat;
    var mid := hi * 256 + s.b2 as nat;
    var w := mid * 256 + s.b3 as nat;
    assert w % 256 == s.b3 as nat && w / 256 == mid;
    assert mid % 256 == s.b2 as nat && mid / 256 == hi;
    assert hi % 256 == s.b1 as nat && hi / 256 == s.b0 as nat;
    assert w / 0x1_0000 == (w / 256) / 256;
    assert w / 0x100_0000 == ((w / 256) / 256) / 256;
  }

  /** Two selectors with the same word are the same selector. */
  lemma SelectorWordInjective(s: Selector, t: Selector)
    ensures SelectorWord(s) == SelectorWord(t) ==> s == t
  {
    SelectorWordRoundTrip(s);
    SelectorWordRoundTrip(t);
  }

  /** One entry point of an abstract program. */
  datatype AbstractEntry = AbstractEntry(
    selector: Option<Selector>,
    jumpLabel: Label,
    ops: AbstractInstructionSet,
    name: string,
    testDeclRef: Option<nat>)

  /** What the allocated program keeps of an entry: selector, label, name and test declaration. */
  datatype EntryInfo = EntryInfo(selector: Option<Selector>, jumpLabel: Label, name: string, testDeclRef: Option<nat>)

  /** The entry function new-encoding contracts jump to. */
  const EntryFunctionName: string := "__entry"

  /** `entries.iter().find(|x| x.name == name)`: the index of the first entry with that name. */
  function FindEntry(entries: seq<AbstractEntry>, name: string): (r: Option<nat>)
    ensures r.Some? ==> r.value < |entries| && entries[r.value].name == name
    ensures r.Some? ==> forall j :: 0 <= j < r.value ==> entries[j].name != name
    ensures r.None? <==> forall j :: 0 <= j < |entries| ==> entries[j].name != name
  {
    if entries == [] then None
    else if entries[0].name == name then Some(0)
    else match FindEntry(entries[1..], name)
      case Some(i) => Some(i + 1)
      case None => None
  }
}
