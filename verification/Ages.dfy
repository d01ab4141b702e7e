/** The two age printers, on whole seconds, and what can be read back from their output. */
module Ages {
  import opened Text

  datatype Part = Part(count: nat, unit: char)

  function UnitSeconds(unit: char): nat {
    match unit
    case 'd' => 86400
    case 'h' => 3600
    case 'm' => 60
    case 's' => 1
    case _ => 0
  }

  function Show(p: Part): string {
    Decimal(p.count) + [p.unit]
  }

  function ShowAll(parts: seq<Part>): string {
    if parts == [] then "" else Show(parts[0]) + ShowAll(parts[1..])
  }

  function Worth(parts: seq<Part>): nat {
    if parts == [] then 0 else parts[0].count * UnitSeconds(parts[0].unit) + Worth(parts[1..])
  }

  function Optional(count: nat, unit: char): seq<Part> {
    if count > 0 then [Part(count, unit)] else []
  }

  /** Days, hours and minutes that are not zero; seconds when only minutes or nothing precede; two at most. */
  function PodParts(d: nat): seq<Part> {
    var days, hours, minutes := d / 86400, d / 3600 % 24, d / 60 % 60;
    var coarse := Optional(days, 'd') + Optional(hours, 'h') + Optional(minutes, 'm');
    var parts := if days == 0 && hours == 0 then coarse + [Part(d % 60, 's')] else coarse;
    if |parts| > 2 then parts[..2] else parts
  }

  function PodAge(d: int): string {
    if d < 0 then "Unknown" else ShowAll(PodParts(d))
  }

  function NamespaceParts(d: nat): seq<Part> {
    var days, hours, minutes := d / 86400, d / 3600 % 24, d / 60 % 60;
    if days > 0 then [Part(days, 'd')] + Optional(hours, 'h')
    else if hours > 0 then [Part(hours, 'h')] + Optional(minutes, 'm')
    else if minutes > 0 then [Part(minutes, 'm')]
    else [Part(d, 's')]
  }

  function NamespaceAge(d: int): string {
    if d < 0 then "Unknown" else ShowAll(NamespaceParts(d))
  }

  /** Joins the shown parts, as `strings.Join` with an empty separator does. */
  function Concat(parts: seq<string>): string {
    if parts == [] then "" else parts[0] + Concat(parts[1..])
  }

  lemma {:induction false} ConcatShows(parts: seq<Part>, shown: seq<string>)
    requires |parts| == |shown| && forall i :: 0 <= i < |parts| ==> shown[i] == Show(parts[i])
    ensures Concat(shown) == ShowAll(parts)
    decreases |parts|
  {
    if parts != [] {
      ConcatShows(parts[1..], shown[1..]);
    }
  }

  /** The pod printer: appends to a list of parts and cuts it to two. */
  method FormatDuration(d: int) returns (s: string)
    ensures s == PodAge(d)
  {
    if d < 0 {
      return "Unknown";
    }
    var days, hours, minutes, seconds := d / 86400, d / 3600 % 24, d / 60 % 60, d % 60;
    var parts: seq<string> := [];
    ghost var shown: seq<Part> := [];
    if days > 0 {
      parts := parts + [Decimal(days) + "d"];
      shown := shown + [Part(days, 'd')];
    }
    if hours > 0 {
      parts := parts + [Decimal(hours) + "h"];
      shown := shown + [Part(hours, 'h')];
    }
    if minutes > 0 {
      parts := parts + [Decimal(minutes) + "m"];
      shown := shown + [Part(minutes, 'm')];
    }
    if |parts| == 0 || (|parts| == 1 && days == 0 && hours == 0) {
      parts := parts + [Decimal(seconds) + "s"];
      shown := shown + [Part(seconds, 's')];
    }
    if |parts| > 2 {
      parts := parts[..2];
      shown := shown[..2];
    }
    assert shown == PodParts(d);
    ConcatShows(shown, parts);
    s := Concat(parts);
  }

  // ---------------------------------------------------------------------------
  // Reading an age back
  // ---------------------------------------------------------------------------

  /** Seconds denoted by an age string: each number times the unit after it. */
  function ReadAge(s: string, number: nat, total: nat): nat {
    if s == "" then total
    else if IsDigit(s[0]) then ReadAge(s[1..], 10 * number + DigitValue(s[0]), total)
    else ReadAge(s[1..], 0, total + number * UnitSeconds(s[0]))
  }

  function ParseAge(s: string): nat {
    ReadAge(s, 0, 0)
  }

  lemma {:induction false} ReadNumber(digits: string, rest: string, number: nat, total: nat)
    requires forall c <- digits :: IsDigit(c)
    ensures ReadAge(digits + rest, number, total) == ReadAge(rest, ReadDigits(digits, number), total)
    decreases |digits|
  {
    if digits == "" {
      assert digits + rest == rest;
    } else {
      assert (digits + rest)[1..] == digits[1..] + rest;
      ReadNumber(digits[1..], rest, 10 * number + DigitValue(digits[0]), total);
    }
  }

  lemma {:induction false} ShownReadsBack(parts: seq<Part>, total: nat)
    requires forall p <- parts :: !IsDigit(p.unit)
    ensures ReadAge(ShowAll(parts), 0, total) == total + Worth(parts)
    decreases |parts|
  {
    if parts != [] {
      var Part(count, unit) := parts[0];
      var rest := ShowAll(parts[1..]);
      assert ShowAll(parts) == Decimal(count) + ([unit] + rest);
      ReadNumber(Decimal(count), [unit] + rest, 0, total);
      DecimalReadsBack(count);
      assert ([unit] + rest)[1..] == rest;
      ShownReadsBack(parts[1..], total + count * UnitSeconds(unit));
    }
  }

  // ---------------------------------------------------------------------------
  // What is lost
  // ---------------------------------------------------------------------------

  /** Nothing below an hour; the seconds below a day or within the first hour of a day; else the part of the hour. */
  function PodLoss(d: nat): nat {
    if d < 3600 then 0
    else if d < 86400 || d / 3600 % 24 == 0 then d % 60
    else d % 3600
  }

  function NamespaceLoss(d: nat): nat {
    if d < 60 then 0 else if d < 86400 then d % 60 else d % 3600
  }

  lemma SplitTime(d: nat)
    ensures d == 86400 * (d / 86400) + 3600 * (d / 3600 % 24) + 60 * (d / 60 % 60) + d % 60
    ensures d % 3600 == 60 * (d / 60 % 60) + d % 60
    ensures (d / 86400 == 0 <==> d < 86400) && (d / 3600 == 0 <==> d < 3600)
    ensures d < 86400 ==> d / 3600 % 24 == d / 3600
    ensures d < 3600 ==> d / 60 % 60 == d / 60
  {
    assert d / 3600 == (d / 60) / 60;
    assert d / 86400 == (d / 3600) / 24;
  }

  lemma PodPartsWorth(d: nat)
    ensures Worth(PodParts(d)) == d - PodLoss(d) && PodLoss(d) <= d
    ensures forall p <- PodParts(d) :: !IsDigit(p.unit)
  {
    SplitTime(d);
    var days, hours, minutes, seconds := d / 86400, d / 3600 % 24, d / 60 % 60, d % 60;
    var parts := PodParts(d);
    if days > 0 {
      assert parts == if hours > 0 then [Part(days, 'd'), Part(hours, 'h')]
                      else if minutes > 0 then [Part(days, 'd'), Part(minutes, 'm')] else [Part(days, 'd')];
    } else if hours > 0 {
      assert parts == if minutes > 0 then [Part(hours, 'h'), Part(minutes, 'm')] else [Part(hours, 'h')];
    } else {
      assert parts == if minutes > 0 then [Part(minutes, 'm'), Part(seconds, 's')] else [Part(seconds, 's')];
    }
    WorthOfFew(parts);
  }

  lemma WorthOfFew(parts: seq<Part>)
    requires 1 <= |parts| <= 2
    ensures Worth(parts) == parts[0].count * UnitSeconds(parts[0].unit)
                            + (if |parts| == 2 then parts[1].count * UnitSeconds(parts[1].unit) else 0)
  {
    if |parts| == 2 {
      assert parts[1..][1..] == [] && Worth(parts[1..]) == parts[1].count * UnitSeconds(parts[1].unit);
    }
  }

  /** The pod age of `d` seconds reads back as `d` less an exactly known loss. */
  lemma PodAgeLoss(d: nat)
    ensures ParseAge(PodAge(d)) == d - PodLoss(d)
    ensures PodLoss(d) <= d && (d < 3600 ==> PodLoss(d) == 0) && (d < 86400 ==> PodLoss(d) < 60) && PodLoss(d) < 3600
  {
    PodPartsWorth(d);
    ShownReadsBack(PodParts(d), 0);
  }

  lemma NamespaceAgeLoss(d: nat)
    ensures ParseAge(NamespaceAge(d)) == d - NamespaceLoss(d) && NamespaceLoss(d) <= d
  {
    SplitTime(d);
    var parts := NamespaceParts(d);
    WorthOfFew(parts);
    ShownReadsBack(parts, 0);
  }

  lemma FloorsAreMonotone(a: nat, b: nat)
    requires a <= b
    ensures a - a % 60 <= b - b % 60 && a - a % 3600 <= b - b % 3600
  {
  }

  /** An older pod never reads back as younger; likewise a namespace. */
  lemma AgesAreMonotone(a: nat, b: nat)
    requires a <= b
    ensures ParseAge(PodAge(a)) <= ParseAge(PodAge(b))
    ensures ParseAge(NamespaceAge(a)) <= ParseAge(NamespaceAge(b))
  {
    PodAgeLoss(a);
    PodAgeLoss(b);
    NamespaceAgeLoss(a);
    NamespaceAgeLoss(b);
    FloorsAreMonotone(a, b);
    PodFloorsAreMonotone(a, b);
  }

  lemma PodFloorsAreMonotone(a: nat, b: nat)
    requires a <= b
    ensures a - PodLoss(a) <= b - PodLoss(b)
  {
    FloorsAreMonotone(a, b);
    if PodLoss(b) == b % 3600 && b >= 86400 && b / 3600 % 24 != 0 {
      // `b` is floored to the hour; the hour that starts at or before it is at or after `a`'s floor
      if a / 3600 < b / 3600 {
        assert a < b - b % 3600;
      }
    }
  }

  /** The namespace printer is the coarser of the two. */
  lemma NamespaceAgeIsCoarser(d: nat)
    ensures ParseAge(NamespaceAge(d)) <= ParseAge(PodAge(d)) <= d
  {
    PodAgeLoss(d);
    NamespaceAgeLoss(d);
    SplitTime(d);
  }

  // ---------------------------------------------------------------------------
  // The strings themselves
  // ---------------------------------------------------------------------------

  /** A count and its unit, or nothing for a count of zero. */
  function Unless0(count: nat, unit: string): string {
    if count == 0 then "" else Decimal(count) + unit
  }

  lemma ShowTwo(a: Part, b: seq<Part>)
    requires |b| <= 1
    ensures ShowAll([a] + b) == Show(a) + (if b == [] then "" else Show(b[0]))
  {
    assert ([a] + b)[1..] == b;
    if b != [] {
      assert b[1..] == [] && Show(b[0]) + "" == Show(b[0]);
    }
  }

  lemma DivideTwice(d: nat)
    ensures d / 3600 % 24 == d % 86400 / 3600 && d / 60 % 60 == d % 3600 / 60
  {
    SplitTime(d);
  }

  /**
   The pod age by ranges: seconds; minutes and always seconds; hours and minutes; days and
   hours, or days and minutes within the first hour of a day.
   */
  lemma PodAgeByRange(d: int)
    ensures PodAge(d) ==
              if d < 0 then "Unknown"
              else if d < 60 then Decimal(d) + "s"
              else if d < 3600 then Decimal(d / 60) + "m" + (Decimal(d % 60) + "s")
              else if d < 86400 then Decimal(d / 3600) + "h" + Unless0(d % 3600 / 60, "m")
              else if d % 86400 >= 3600 then Decimal(d / 86400) + "d" + Unless0(d % 86400 / 3600, "h")
              else Decimal(d / 86400) + "d" + Unless0(d % 3600 / 60, "m")
  {
    if d >= 86400 {
      PodAgeOfDays(d);
    } else if d >= 0 {
      PodAgeWithinDay(d);
    }
  }

  lemma PodAgeOfDays(d: nat)
    requires d >= 86400
    ensures PodAge(d) == Decimal(d / 86400) + "d"
                         + (if d % 86400 >= 3600 then Unless0(d % 86400 / 3600, "h") else Unless0(d % 3600 / 60, "m"))
  {
    PodPartsOfDays(d);
    ShowTwo(Part(d / 86400, 'd'), PodSecondOfDays(d));
  }

  lemma PodAgeWithinDay(d: nat)
    requires d < 86400
    ensures PodAge(d) == if d < 60 then Decimal(d) + "s"
                         else if d < 3600 then Decimal(d / 60) + "m" + (Decimal(d % 60) + "s")
                         else Decimal(d / 3600) + "h" + Unless0(d % 3600 / 60, "m")
  {
    PodPartsWithinDay(d);
    if d >= 3600 {
      ShowTwo(Part(d / 3600, 'h'), Optional(d % 3600 / 60, 'm'));
    } else if d >= 60 {
      ShowTwo(Part(d / 60, 'm'), [Part(d % 60, 's')]);
    } else {
      ShowTwo(Part(d, 's'), []);
    }
  }

  function PodSecondOfDays(d: nat): seq<Part> {
    if d % 86400 >= 3600 then Optional(d % 86400 / 3600, 'h') else Optional(d % 3600 / 60, 'm')
  }

  lemma PodPartsOfDays(d: nat)
    requires d >= 86400
    ensures PodParts(d) == [Part(d / 86400, 'd')] + PodSecondOfDays(d)
  {
    DivideTwice(d);
    var day, hour, minute := Optional(d / 86400, 'd'), Optional(d % 86400 / 3600, 'h'), Optional(d % 3600 / 60, 'm');
    assert day == [Part(d / 86400, 'd')];
    if hour != [] {
      assert (day + hour + minute)[..2] == day + hour;
    }
  }

  lemma PodPartsWithinDay(d: nat)
    requires d < 86400
    ensures PodParts(d) == if d < 60 then [Part(d, 's')] + []
                           else if d < 3600 then [Part(d / 60, 'm')] + [Part(d % 60, 's')]
                           else [Part(d / 3600, 'h')] + Optional(d % 3600 / 60, 'm')
  {
    SplitTime(d);
    DivideTwice(d);
  }

  /** The namespace age by ranges: one unit below an hour, and no minutes once there are days. */
  lemma NamespaceAgeByRange(d: int)
    ensures NamespaceAge(d) ==
              if d < 0 then "Unknown"
              else if d < 60 then Decimal(d) + "s"
              else if d < 3600 then Decimal(d / 60) + "m"
              else if d < 86400 then Decimal(d / 3600) + "h" + Unless0(d % 3600 / 60, "m")
              else Decimal(d / 86400) + "d" + Unless0(d % 86400 / 3600, "h")
  {
    if d >= 0 {
      var days, hours, minutes := d / 86400, d / 3600 % 24, d / 60 % 60;
      SplitTime(d);
      DivideTwice(d);
      if d >= 86400 {
        ShowTwo(Part(days, 'd'), Optional(hours, 'h'));
      } else if d >= 3600 {
        ShowTwo(Part(hours, 'h'), Optional(minutes, 'm'));
      } else if d >= 60 {
        assert NamespaceParts(d) == [Part(minutes, 'm')] + [];
        ShowTwo(Part(minutes, 'm'), []);
      } else {
        assert NamespaceParts(d) == [Part(d, 's')] + [];
        ShowTwo(Part(d, 's'), []);
      }
    }
  }
}
