/** Matching a device's `+org.linphone.specs` against the capabilities of a chat room. */
module Capabilities {
  import opened Text

  /** The bits of `linphone::ChatRoom::Capabilities`; a mask is the set of its bits. */
  datatype Capability = Basic | RealTimeText | Conference | Proxy | Migratable | OneToOne | Encrypted | Ephemeral
                      | OtherBit(index: nat)

  type Mask = set<Capability>

  const GROUPCHAT_KEYWORD: string := "groupchat"
  const LIME_KEYWORD: string := "lime"
  const EPHEMERAL_KEYWORD: string := "ephemeral"

  /** What a device told the server about itself; `specs` is its capability descriptor. */
  datatype Device = Device(address: string, name: string, specs: string)

  function MaskFromSpecs(specs: string): Mask {
    (if Contains(specs, GROUPCHAT_KEYWORD) then {Conference} else {})
    + (if Contains(specs, LIME_KEYWORD) then {Encrypted} else {})
    + (if Contains(specs, EPHEMERAL_KEYWORD) then {Ephemeral} else {})
  }

  /** `(mask & room) == room`, `mask` being OneToOne and what the specs stand for. */
  predicate IsContactCompatible(check: bool, room: Mask, specs: string) {
    !check || ({OneToOne} + MaskFromSpecs(specs)) * room == room
  }

  /** The keyword that backs a capability, if a device has a way to claim it. */
  function Keyword(c: Capability): Option<string> {
    match c
    case Conference => Some(GROUPCHAT_KEYWORD)
    case Encrypted => Some(LIME_KEYWORD)
    case Ephemeral => Some(EPHEMERAL_KEYWORD)
    case _ => None
  }

  /** The devices of a list that a room accepts, in the order of the list. */
  function Compatible(check: bool, room: Mask, devices: seq<Device>): seq<Device> {
    if devices == [] then [] else
      var rest := Compatible(check, room, devices[1..]);
      if IsContactCompatible(check, room, devices[0].specs) then [devices[0]] + rest else rest
  }

  /** The filter keeps exactly the accepted devices. */
  lemma {:induction false} CompatibleMembers(check: bool, room: Mask, devices: seq<Device>, d: Device)
    ensures d in Compatible(check, room, devices) <==> d in devices && IsContactCompatible(check, room, d.specs)
  {
    if devices != [] {
      CompatibleMembers(check, room, devices[1..], d);
    }
  }

  /** `xs` is what remains of `ys` once some elements are dropped. */
  predicate Subsequence<T(==)>(xs: seq<T>, ys: seq<T>) {
    xs == [] || (ys != [] && ((xs[0] == ys[0] && Subsequence(xs[1..], ys[1..])) || Subsequence(xs, ys[1..])))
  }

  /** Acceptance decided bit by bit: every bit of the room other than OneToOne has a keyword, and it occurs. */
  lemma AcceptedExactlyWhenEveryBitIsBacked(room: Mask, specs: string)
    ensures IsContactCompatible(true, room, specs) <==>
            forall c | c in room && c != OneToOne :: Keyword(c).Some? && Contains(specs, Keyword(c).value)
  {
  }

  /** The keywords, by name. */
  lemma KeywordsOfCapabilities(c: Capability)
    ensures Keyword(c) == if c == Conference then Some("groupchat")
                          else if c == Encrypted then Some("lime")
                          else if c == Ephemeral then Some("ephemeral")
                          else None
  {
  }

  /** Saying more never loses a room: a descriptor that contains an accepted one is accepted. */
  lemma AcceptanceIsMonotone(check: bool, room: Mask, s: string, t: string)
    requires Contains(t, s) && IsContactCompatible(check, room, s)
    ensures IsContactCompatible(check, room, t)
  {
    if check {
      AcceptedExactlyWhenEveryBitIsBacked(room, s);
      forall c | c in room && c != OneToOne ensures Keyword(c).Some? && Contains(t, Keyword(c).value) {
        ContainsTransitive(t, s, Keyword(c).value);
      }
      AcceptedExactlyWhenEveryBitIsBacked(room, t);
    }
  }

  /** A room that asks for more accepts no device that a room asking for less refuses. */
  lemma WiderMaskAcceptsLess(check: bool, narrow: Mask, wide: Mask, specs: string)
    requires narrow <= wide && IsContactCompatible(check, wide, specs)
    ensures IsContactCompatible(check, narrow, specs)
  {
  }

  /** Widening the room's mask only drops devices from what is delivered; it never adds or reorders any. */
  lemma {:induction false} WiderMaskDropsDevices(check: bool, narrow: Mask, wide: Mask, devices: seq<Device>)
    requires narrow <= wide
    ensures Subsequence(Compatible(check, wide, devices), Compatible(check, narrow, devices))
  {
    if devices != [] {
      var specs := devices[0].specs;
      WiderMaskDropsDevices(check, narrow, wide, devices[1..]);
      if IsContactCompatible(check, wide, specs) {
        WiderMaskAcceptsLess(check, narrow, wide, specs);
        PrependBoth(devices[0], Compatible(check, wide, devices[1..]), Compatible(check, narrow, devices[1..]));
      } else {
        PrependRight(devices[0], Compatible(check, wide, devices[1..]), Compatible(check, narrow, devices[1..]));
      }
    }
  }

  lemma PrependBoth<T>(x: T, xs: seq<T>, ys: seq<T>)
    requires Subsequence(xs, ys)
    ensures Subsequence([x] + xs, [x] + ys)
  {
  }

  lemma PrependRight<T>(x: T, xs: seq<T>, ys: seq<T>)
    requires Subsequence(xs, ys)
    ensures Subsequence(xs, [x] + ys)
  {
  }

  /** Lists are filtered piecewise. */
  lemma {:induction false} CompatibleSplits(check: bool, room: Mask, xs: seq<Device>, ys: seq<Device>)
    ensures Compatible(check, room, xs + ys) == Compatible(check, room, xs) + Compatible(check, room, ys)
  {
    hide IsContactCompatible;
    if xs == [] {
      assert xs + ys == ys;
    } else {
      CompatibleSplits(check, room, xs[1..], ys);
      assert (xs + ys)[0] == xs[0] && (xs + ys)[1..] == xs[1..] + ys;
    }
  }

  lemma {:induction false} UncheckedAcceptsEverything(room: Mask, devices: seq<Device>)
    ensures Compatible(false, room, devices) == devices
  {
    if devices != [] {
      UncheckedAcceptsEverything(room, devices[1..]);
    }
  }

  /** A value is accepted raw exactly when it is accepted unquoted: no keyword holds a double quote. */
  lemma UnquotingKeepsAcceptance(check: bool, room: Mask, raw: string)
    ensures IsContactCompatible(check, room, raw) <==> IsContactCompatible(check, room, Unquote(raw))
  {
    UnquoteKeepsKeywords(raw, GROUPCHAT_KEYWORD);
    UnquoteKeepsKeywords(raw, LIME_KEYWORD);
    UnquoteKeepsKeywords(raw, EPHEMERAL_KEYWORD);
    assert MaskFromSpecs(raw) == MaskFromSpecs(Unquote(raw));
  }
}
