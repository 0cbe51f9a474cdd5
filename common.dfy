/** Values and string helpers shared by the renderer and the server model:
    an optional value, JavaScript truthiness of an optional string, the
    `x || ''` idiom, `Array.prototype.join`, and decimal text of an integer. */
module Common {

  datatype Option<+T> = None | Some(value: T)

  /** A JavaScript string slot is truthy iff it holds a non-empty string
      (null, undefined and '' are all falsy). */
  predicate Truthy(o: Option<string>) {
    o.Some? && o.value != ""
  }

  /** The `o || ''` idiom. */
  function OrEmpty(o: Option<string>): (s: string)
    ensures Truthy(o) ==> s == o.value
    ensures !Truthy(o) ==> s == ""
    ensures s == "" <==> !Truthy(o)
  {
    if Truthy(o) then o.value else ""
  }

  /** `parts.join(sep)`: the parts in order with `sep` between neighbours. */
  function Join(parts: seq<string>, sep: string): string
  {
    if |parts| == 0 then ""
    else if |parts| == 1 then parts[0]
    else parts[0] + sep + Join(parts[1..], sep)
  }

  /** Concatenation of the parts with nothing in between, folded from the left;
      the reference against which `join('')` is checked. */
  function Concat(parts: seq<string>): string
  {
    if |parts| == 0 then "" else Concat(parts[..|parts| - 1]) + parts[|parts| - 1]
  }

  /** Total length of the parts. */
  function TotalLength(parts: seq<string>): nat
  {
    if |parts| == 0 then 0 else |parts[0]| + TotalLength(parts[1..])
  }

  /** Joining two non-empty lists is joining each and putting one separator
      between the two results. */
  lemma {:induction false} JoinAppend(xs: seq<string>, ys: seq<string>, sep: string)
    requires |xs| > 0 && |ys| > 0
    ensures Join(xs + ys, sep) == Join(xs, sep) + sep + Join(ys, sep)
  {
    if |xs| == 1 {
      assert (xs + ys)[1..] == ys;
    } else {
      assert (xs + ys)[1..] == xs[1..] + ys;
      JoinAppend(xs[1..], ys, sep);
    }
  }

  /** Appending one part at the end adds one separator and that part. */
  lemma JoinSnoc(xs: seq<string>, x: string, sep: string)
    requires |xs| > 0
    ensures Join(xs + [x], sep) == Join(xs, sep) + sep + x
  {
    JoinAppend(xs, [x], sep);
  }

  /** `join('')` is the in-order concatenation of the parts. */
  lemma {:induction false} JoinNoSeparator(parts: seq<string>)
    ensures Join(parts, "") == Concat(parts)
  {
    if |parts| > 1 {
      var init := parts[..|parts| - 1];
      assert parts == init + [parts[|parts| - 1]];
      JoinNoSeparator(init);
      JoinSnoc(init, parts[|parts| - 1], "");
    }
  }

  /** The joined string is as long as the parts together plus one separator
      between each pair of neighbours. */
  lemma {:induction false} JoinLength(parts: seq<string>, sep: string)
    requires |parts| > 0
    ensures |Join(parts, sep)| == TotalLength(parts) + (|parts| - 1) * |sep|
  {
    if |parts| > 1 {
      JoinLength(parts[1..], sep);
    }
  }

  /** With a separator, the joined string is empty iff there are no parts or
      exactly one empty part. */
  lemma {:induction false} JoinEmptyIff(parts: seq<string>, sep: string)
    requires sep != ""
    ensures Join(parts, sep) == "" <==> |parts| == 0 || (|parts| == 1 && parts[0] == "")
  {
    if |parts| > 1 {
      assert |Join(parts, sep)| >= |sep|;
    }
  }

  /** Without a separator, the joined string is empty iff every part is. */
  lemma {:induction false} JoinNoSeparatorEmptyIff(parts: seq<string>)
    ensures Join(parts, "") == "" <==> forall i :: 0 <= i < |parts| ==> parts[i] == ""
  {
    if |parts| > 1 {
      var tail := parts[1..];
      JoinNoSeparatorEmptyIff(tail);
      var joined := Join(tail, "");
      assert Join(parts, "") == parts[0] + joined;
      assert |parts[0] + joined| == |parts[0]| + |joined|;
      if forall i :: 0 <= i < |parts| ==> parts[i] == "" {
        forall i | 0 <= i < |tail|
          ensures tail[i] == ""
        {
          assert tail[i] == parts[i + 1];
        }
      } else {
        var k :| 0 <= k < |parts| && parts[k] != "";
        if k > 0 {
          assert tail[k - 1] == parts[k];
        }
      }
    }
  }

  /** The decimal digit character for `d`. */
  function DigitChar(d: int): (c: char)
    requires 0 <= d < 10
    ensures '0' <= c <= '9'
  {
    "0123456789"[d]
  }

  /** Decimal text of a natural number, most significant digit first. */
  function NatText(n: nat): (s: string)
    ensures |s| > 0
    ensures forall i :: 0 <= i < |s| ==> '0' <= s[i] <= '9'
  {
    if n < 10 then [DigitChar(n)] else NatText(n / 10) + [DigitChar(n % 10)]
  }

  /** Decimal text of an integer, as JavaScript's String(n) writes an integral
      number: a leading '-' for negative values. */
  function IntText(n: int): (s: string)
    ensures |s| > 0
    ensures s[0] == '-' <==> n < 0
  {
    if n < 0 then "-" + NatText(-n) else NatText(n)
  }
}
