/**
 * Colour helpers of app/utils/index.ts: cyclic indexing into the chart palette and the
 * badge colour of a ticket priority. The palette itself (`universalColors`, defined in
 * app/utils/charts/colors.ts) is a parameter.
 */
module Palette {
  import opened Common

  // Facts about Euclidean `%` used below.

  lemma {:induction false} MulAtLeast(k: int, n: int)
    requires k >= 1 && n > 0
    ensures k * n >= n
  {
    if k > 1 {
      MulAtLeast(k - 1, n);
      assert k * n == (k - 1) * n + n;
    }
  }

  /** The remainder is determined by any decomposition `a == q * n + r` with `0 <= r < n`. */
  lemma ModUnique(a: int, n: int, q: int, r: int)
    requires n > 0 && 0 <= r < n && a == q * n + r
    ensures a % n == r
  {
    var q', r' := a / n, a % n;
    assert a == q' * n + r';
    var k := q - q';
    assert k * n == q * n - q' * n;
    assert k * n == r' - r;
    if k >= 1 {
      MulAtLeast(k, n);
    } else if k <= -1 {
      MulAtLeast(-k, n);
    }
  }

  lemma ModPeriod(i: int, n: int)
    requires 0 <= i && n > 0
    ensures (i + n) % n == i % n
  {
    assert i == (i / n) * n + i % n;
    assert i + n == (i / n + 1) * n + i % n;
    ModUnique(i + n, n, i / n + 1, i % n);
  }

  /** `-i` is a multiple of `n` exactly when `i` is. */
  lemma NegMod(i: int, n: int)
    requires i < 0 && n > 0
    ensures ((-i) % n == 0) <==> (i % n == 0)
  {
    assert -i == ((-i) / n) * n + (-i) % n;
    assert i == (i / n) * n + i % n;
    if (-i) % n == 0 {
      assert i == (-((-i) / n)) * n + 0;
      ModUnique(i, n, -((-i) / n), 0);
    }
    if i % n == 0 {
      assert -i == (-(i / n)) * n + 0;
      ModUnique(-i, n, -(i / n), 0);
    }
  }

  /** JavaScript's `i % n` for integers: the remainder takes the sign of `i`. */
  function JsRemainder(i: int, n: int): (r: int)
    requires n > 0
    ensures i >= 0 ==> r == i % n
    ensures i < 0 ==> r == -((-i) % n)
    ensures i < 0 ==> -n < r <= 0 && (r == 0 <==> i % n == 0)
  {
    if i >= 0 then i % n
    else
      NegMod(i, n);
      -((-i) % n)
  }

  /**
   * `colorForIndex(i)`: `universalColors[i % universalColors.length]`. An empty palette gives
   * NaN as index and a negative remainder names no entry, both `undefined`; a remainder of
   * `-0` reads entry 0.
   */
  function ColorForIndex(palette: seq<string>, i: int): (color: Option<string>)
    ensures |palette| > 0 && i >= 0 ==> color == Some(palette[i % |palette|])
    ensures |palette| == 0 ==> color.None?
    ensures i < 0 && |palette| > 0 ==> (color.Some? <==> i % |palette| == 0)
    ensures i < 0 && |palette| > 0 && i % |palette| == 0 ==> color == Some(palette[0])
    ensures color.Some? ==> color.value in palette
  {
    if |palette| == 0 then None
    else
      var r := JsRemainder(i, |palette|);
      if r < 0 then None else Some(palette[r])
  }

  /** Moving one whole palette further along gives the same colour. */
  lemma ColorForIndexPeriodic(palette: seq<string>, i: nat)
    ensures ColorForIndex(palette, i + |palette|) == ColorForIndex(palette, i)
  {
    if |palette| > 0 {
      ModPeriod(i, |palette|);
    }
  }

  /** The first `|palette|` bars get the palette's colours in order, each once. */
  lemma ColorForIndexCoversPalette(palette: seq<string>, i: nat)
    requires i < |palette|
    ensures ColorForIndex(palette, i) == Some(palette[i])
  {
    ModUnique(i, |palette|, 0, i);
  }

  /** The badge colours of the design system. */
  datatype BadgeColor = Success | Info | Warning | Error | Neutral | Primary | Secondary

  /** `useColor`: the badge colour of a ticket priority label. */
  function UseColor(priority: string): (color: BadgeColor)
    ensures color in {Success, Info, Warning, Error, Neutral}
  {
    match priority
    case "Baixa" => Success
    case "Média" => Info
    case "Alta" => Warning
    case "Crítica" => Error
    case _ => Neutral
  }

  /** The priority a non-neutral badge colour stands for. */
  function PriorityOf(color: BadgeColor): (priority: Option<string>)
    ensures priority.Some? <==> color in {Success, Info, Warning, Error}
  {
    match color
    case Success => Some("Baixa")
    case Info => Some("Média")
    case Warning => Some("Alta")
    case Error => Some("Crítica")
    case _ => None
  }

  /**
   * The four priority labels get four different, non-neutral colours, and every other
   * string is neutral: `UseColor` and `PriorityOf` are inverse on the labels.
   */
  lemma UseColorClassifies(priority: string)
    ensures UseColor(priority) != Neutral <==> priority in {"Baixa", "Média", "Alta", "Crítica"}
    ensures UseColor(priority) != Neutral ==> PriorityOf(UseColor(priority)) == Some(priority)
  {
  }

  lemma PriorityOfRoundTrip(color: BadgeColor)
    requires PriorityOf(color).Some?
    ensures UseColor(PriorityOf(color).value) == color
  {
  }
}
