/** Pixels of the analysis image and the "dark" classification. */
module Pixels {

  /** One 8-bit colour channel, as returned by toInt() on a colour channel. */
  newtype Channel = c: int | 0 <= c <= 255

  datatype Rgb = Rgb(red: Channel, green: Channel, blue: Channel)

  /** The luminance threshold below which a pixel counts as covered. */
  const DarkThreshold: real := 250.0

  /** A pixel is dark when the unweighted mean of its channels is below 250,
      which is the integer test r + g + b < 750. */
  predicate IsDark(p: Rgb): (dark: bool)
    ensures dark <==> ChannelSum(p) < 750
  {
    (p.red as real + p.green as real + p.blue as real) / 3.0 < DarkThreshold
  }

  function ChannelSum(p: Rgb): (s: int)
    ensures 0 <= s <= 765
  {
    p.red as int + p.green as int + p.blue as int
  }

  /** A grey pixel is dark exactly when its level is below 250. */
  lemma GreyIsDark(level: Channel)
    ensures IsDark(Rgb(level, level, level)) <==> level < 250
  {
    assert ChannelSum(Rgb(level, level, level)) == 3 * level as int;
  }

  /** Pure white is background; pure black is covered. */
  lemma WhiteAndBlack()
    ensures !IsDark(Rgb(255, 255, 255))
    ensures IsDark(Rgb(0, 0, 0))
  {
    GreyIsDark(255);
    GreyIsDark(0);
  }

  /** The threshold is strict: grey 249 is covered, grey 250 is not. */
  lemma ThresholdIsStrict()
    ensures IsDark(Rgb(249, 249, 249)) && !IsDark(Rgb(250, 250, 250))
  {
    GreyIsDark(249);
    GreyIsDark(250);
  }
}
