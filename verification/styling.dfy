/**
 * Terminal colouring (the `chalk` library) kept opaque: a styled piece of text
 * is its style tag and its characters; escape codes are not modelled.
 */
module Styling {

  datatype Style =
    | Plain | Bold | Green | Red | Yellow | Gray | Blue | Cyan | White
    | BoldBlue | BoldCyan | UnderlineCyan

  datatype Segment = Segment(style: Style, text: string)

  /** A printed line: styled pieces one after the other. */
  type Line = seq<Segment>

  /** The characters of a line once the styles are stripped. */
  function Text(l: Line): string
    decreases |l|
  {
    if l == [] then "" else Text(l[..|l| - 1]) + l[|l| - 1].text
  }

  lemma {:induction false} TextConcat(a: Line, b: Line)
    ensures Text(a + b) == Text(a) + Text(b)
    decreases |b|
  {
    if b == [] {
      assert a + b == a;
    } else {
      assert (a + b)[..|a + b| - 1] == a + b[..|b| - 1];
      TextConcat(a, b[..|b| - 1]);
    }
  }

  /** The text of a line of two pieces. */
  lemma TextOfTwo(a: Segment, b: Segment)
    ensures Text([a, b]) == a.text + b.text
  {
    assert [a][..0] == [];
    assert Text([a]) == a.text;
    assert [a, b][..1] == [a];
  }

  /** The text of a line of three pieces. */
  lemma TextOfThree(a: Segment, b: Segment, c: Segment)
    ensures Text([a, b, c]) == a.text + b.text + c.text
  {
    assert [a][..0] == [];
    assert Text([a]) == a.text;
    assert [a, b][..1] == [a];
    assert Text([a, b]) == a.text + b.text;
    assert [a, b, c][..2] == [a, b];
  }
}
