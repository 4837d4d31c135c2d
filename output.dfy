/** What the plugins write. Colours are dropped; the sink a line goes to is kept. */
module Output {

  /** Where `Display.display` sends a line: screen and log, one of them only, or stderr. */
  datatype Channel = Normal | ScreenOnly | LogOnly | StdErr

  datatype Line =
    | Display(channel: Channel, text: string)  // self._display.display(text, ...)
    | Banner(text: string)                     // self._display.banner(text)
    | Error(text: string)                      // self._display.error(text)
    | Print(text: string)                      // the builtin print(text)
    | Helper(name: string)                     // output of an inherited Ansible helper, not modelled

  /** Number of banners among `lines`. */
  function BannerCount(lines: seq<Line>): (n: nat)
    ensures n <= |lines|
  {
    if lines == [] then 0
    else (if lines[0].Banner? then 1 else 0) + BannerCount(lines[1..])
  }

  lemma {:induction false} BannerCountConcat(a: seq<Line>, b: seq<Line>)
    ensures BannerCount(a + b) == BannerCount(a) + BannerCount(b)
  {
    if a == [] {
      assert a + b == b;
    } else {
      assert (a + b)[1..] == a[1..] + b;
      BannerCountConcat(a[1..], b);
    }
  }

  /** A run of lines none of which is a banner. */
  lemma {:induction false} NoBanners(lines: seq<Line>)
    requires forall i :: 0 <= i < |lines| ==> !lines[i].Banner?
    ensures BannerCount(lines) == 0
  {
    if lines != [] {
      NoBanners(lines[1..]);
    }
  }

  /** A slice of the middle part of `a + b + c` is a slice of `b`. */
  lemma SliceInMiddle(a: seq<Line>, b: seq<Line>, c: seq<Line>, i: nat, j: nat)
    requires i <= j <= |b|
    ensures (a + b + c)[|a| + i..|a| + j] == b[i..j]
  {
    var all := a + b + c;
    assert forall n :: 0 <= n < j - i ==> all[|a| + i..|a| + j][n] == b[i..j][n];
  }

  /** Regrouping appended output. */
  lemma AppendAssoc(a: seq<Line>, b: seq<Line>, c: seq<Line>)
    ensures a + (b + c) == a + b + c
  {
  }

  /** The same, for three pieces after `a`. */
  lemma AppendAssoc3(a: seq<Line>, b: seq<Line>, c: seq<Line>, d: seq<Line>)
    ensures a + (b + c + d) == a + b + c + d
  {
    AppendAssoc(a, b + c, d);
    AppendAssoc(a, b, c);
  }
}
