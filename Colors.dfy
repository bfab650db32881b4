// The hex colour initializer and the app's colour constants
// (Utilities/Extensions/ColorExtensions.swift). A Swift `Int` is a 64-bit
// two's-complement value, so the hex code is a `bv64` and the masks and
// shifts are the source's own bit operations.

module Colors {

  /** `(hex & 0xff0000) >> 16`. */
  function RedByte(hex: bv64): bv64 {
    (hex & 0xff0000) >> 16
  }

  /** `(hex & 0xff00) >> 8`. */
  function GreenByte(hex: bv64): bv64 {
    (hex & 0xff00) >> 8
  }

  /** `(hex & 0xff) >> 0`. */
  function BlueByte(hex: bv64): bv64 {
    (hex & 0xff) >> 0
  }

  /** Every channel is a byte. */
  lemma ChannelsAreBytes(hex: bv64)
    ensures RedByte(hex) < 256 && GreenByte(hex) < 256 && BlueByte(hex) < 256
  {
  }

  /** The channels put back together give the low 24 bits of the code. */
  lemma ChannelsRebuildLowBits(hex: bv64)
    ensures (RedByte(hex) << 16) | (GreenByte(hex) << 8) | BlueByte(hex) == hex & 0xffffff
  {
  }

  /** Bits above bit 23 are ignored: codes that differ only there (adding any
      multiple of 2^24, with 64-bit wrap-around) give the same channels. */
  lemma HighBitsIgnored(hex: bv64, k: bv64)
    ensures RedByte(hex + (k << 24)) == RedByte(hex)
    ensures GreenByte(hex + (k << 24)) == GreenByte(hex)
    ensures BlueByte(hex + (k << 24)) == BlueByte(hex)
  {
  }

  /** An sRGB colour with components in [0, 1]. */
  datatype Color = Color(red: real, green: real, blue: real, opacity: real)

  function Component(b: bv64): real {
    (b as int) as real / 255.0
  }

  /** `Color.init(hex:opacity:)`; `opacity` defaults to 1.0. */
  function FromHex(hex: bv64, opacity: real := 1.0): (c: Color)
    ensures 0.0 <= c.red <= 1.0 && 0.0 <= c.green <= 1.0 && 0.0 <= c.blue <= 1.0
    ensures c.opacity == opacity
  {
    ChannelsAreBytes(hex);
    Color(Component(RedByte(hex)), Component(GreenByte(hex)), Component(BlueByte(hex)), opacity)
  }

  lemma DefaultOpacityIsOne(hex: bv64)
    ensures FromHex(hex).opacity == 1.0
  {
  }

  const ConnectedInMain: bv64 := 0x199779
  const ConnectedInFB: bv64 := 0x4267B2
  const ConnectedInRed: bv64 := 0x971921
  const ConnectedInHomeBG: bv64 := 0xF6F4F4
  const ConnectedInCommunityCardBG: bv64 := 0xc8dae7
  const ConnectedTopHeaderBG: bv64 := 0xc8dae7
  const LightGray: bv64 := 0xE0E0E0
  const SoftBeige: bv64 := 0xF0E6D6
  const DarkGray: bv64 := 0x333333

  /** `dashboardHeaderColor`, given by its components. */
  const DashboardHeaderColor: Color := Color(54.0 / 255.0, 112.0 / 255.0, 110.0 / 255.0, 1.0)

  lemma ConstantChannels()
    ensures RedByte(ConnectedInMain) == 25 && GreenByte(ConnectedInMain) == 151 && BlueByte(ConnectedInMain) == 121
    ensures RedByte(ConnectedInRed) == 151 && GreenByte(ConnectedInRed) == 25 && BlueByte(ConnectedInRed) == 33
    ensures RedByte(DarkGray) == 51 && GreenByte(DarkGray) == 51 && BlueByte(DarkGray) == 51
  {
  }

  /** The component-given header colour is the hex colour 0x36706E. */
  lemma DashboardHeaderIsHex()
    ensures FromHex(0x36706E) == DashboardHeaderColor
  {
    assert RedByte(0x36706E) == 54 && GreenByte(0x36706E) == 112 && BlueByte(0x36706E) == 110;
  }
}
