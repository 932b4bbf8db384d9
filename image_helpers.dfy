/** The pure arithmetic helper of the image utilities. */
module ImageHelpers {

  /** `((x + 7) // 8) * 8`. The divisor is positive, so Python's floor
      division and Dafny's `/` agree, negative `x` included. */
  function PadUp8(x: int): (r: int)
    ensures r % 8 == 0
    ensures x <= r < x + 8
  {
    ((x + 7) / 8) * 8
  }

  /** `pad_to_multiple_of_8`: each side is raised to the next multiple of 8. */
  function PadToMultipleOf8(width: int, height: int): (r: (int, int))
    ensures r.0 % 8 == 0 && width <= r.0 < width + 8
    ensures r.1 % 8 == 0 && height <= r.1 < height + 8
  {
    (PadUp8(width), PadUp8(height))
  }

  /** The padded side is the smallest multiple of 8 not below the input. */
  lemma PadIsLeast(x: int, m: int)
    requires m % 8 == 0 && x <= m
    ensures PadUp8(x) <= m
  {
  }

  /** A multiple of 8 is left alone, so padding twice is padding once. */
  lemma PadFixesMultiples(width: int, height: int)
    ensures width % 8 == 0 && height % 8 == 0 ==> PadToMultipleOf8(width, height) == (width, height)
    ensures var p := PadToMultipleOf8(width, height); PadToMultipleOf8(p.0, p.1) == p
  {
    PadIsLeast(width, width + (8 - width % 8) % 8);
    PadIsLeast(height, height + (8 - height % 8) % 8);
    var p := PadToMultipleOf8(width, height);
    PadIsLeast(p.0, p.0);
    PadIsLeast(p.1, p.1);
    if width % 8 == 0 { PadIsLeast(width, width); }
    if height % 8 == 0 { PadIsLeast(height, height); }
  }

  /** Width and height are padded independently: (765, 770) gives (768, 776). */
  lemma PadExample()
    ensures PadToMultipleOf8(765, 770) == (768, 776)
  {
  }
}
