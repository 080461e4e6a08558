/** Downlink frames and the transmission results a gateway reports for them. */
module Frames {
  import opened Words

  type Eui = x: int | 0 <= x < 0x1_0000_0000_0000_0000

  /** A transmission status: never tried, transmitted, or one of the named failures. */
  datatype AckStatus = IGNORED | OK | FAILURE(name: string)

  /** One downlink opportunity. `modulation` is the encoded modulation, None when it cannot be
      encoded; `sendable` tells whether a PULL_RESP packet can be built from the item. */
  datatype Item = Item(frequency: uint32, modulation: Option<string>, sendable: bool)

  /** `gatewayId` is None when the identifier in the frame does not decode. */
  datatype Frame = Frame(downlinkId: uint32, gatewayId: Option<Eui>, items: seq<Item>)
}
