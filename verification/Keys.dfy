/** The strings messages and jobs are deduplicated on, and when two of them are the same. */
module Keys {
  import opened Outcomes
  import opened Csv

  /** What an absent part of a key is written as. */
  const NONE: string := "-"

  function OrNone(part: Option<string>): string {
    match part
    case None => NONE
    case Some(text) => text
  }

  function DedupeKey(kind: string, channel: string, booking: Option<string>, discriminator: Option<string>): string {
    kind + ":" + (channel + ":" + (OrNone(booking) + ":" + OrNone(discriminator)))
  }

  /** A reminder's job id: offset, booking and appointment time, joined with dashes. */
  function ReminderJobId(offset: nat, booking: string, epochSeconds: nat): string {
    "reminder-" + (Decimal(offset) + "-" + (booking + "-" + Decimal(epochSeconds)))
  }

  function ReminderDiscriminator(offset: nat, epochSeconds: nat): string {
    Decimal(offset) + "-" + Decimal(epochSeconds)
  }

  predicate Without(s: string, c: char) {
    forall i | 0 <= i < |s| :: s[i] != c
  }

  /** How much of a string comes before the first of these characters. */
  function Before(s: string, c: char): nat {
    if s == [] || s[0] == c then 0 else 1 + Before(s[1..], c)
  }

  /** How much of a string comes after the last of these characters. */
  function Behind(s: string, c: char): nat {
    if s == [] || s[|s| - 1] == c then 0 else 1 + Behind(s[..|s| - 1], c)
  }

  lemma {:induction false} BeforeSeparator(a: string, c: char, x: string)
    requires Without(a, c)
    ensures Before(a + [c] + x, c) == |a|
  {
    if a == [] {
      assert (a + [c] + x)[0] == c;
    } else {
      BeforeSeparator(a[1..], c, x);
      assert (a + [c] + x)[1..] == a[1..] + [c] + x;
    }
  }

  lemma {:induction false} BehindSeparator(a: string, c: char, x: string)
    requires Without(x, c)
    ensures Behind(a + [c] + x, c) == |x|
  {
    if x == [] {
      assert (a + [c] + x)[|a|] == c;
    } else {
      BehindSeparator(a, c, x[..|x| - 1]);
      assert (a + [c] + x)[..|a| + |x|] == a + [c] + x[..|x| - 1];
    }
  }

  /** A separator that neither left part contains splits two joined strings the same way. */
  lemma SplitsAtFirst(a: string, x: string, b: string, y: string, c: char)
    requires Without(a, c) && Without(b, c)
    ensures a + [c] + x == b + [c] + y <==> a == b && x == y
  {
    BeforeSeparator(a, c, x);
    BeforeSeparator(b, c, y);
    SameLengthsSplit(a, x, b, y, c);
  }

  lemma SplitsAtLast(a: string, x: string, b: string, y: string, c: char)
    requires Without(x, c) && Without(y, c)
    ensures a + [c] + x == b + [c] + y <==> a == b && x == y
  {
    BehindSeparator(a, c, x);
    BehindSeparator(b, c, y);
    assert |a + [c] + x| == |a| + 1 + |x| && |b + [c] + y| == |b| + 1 + |y|;
    SameLengthsSplit(a, x, b, y, c);
  }

  lemma SameLengthsSplit(a: string, x: string, b: string, y: string, c: char)
    ensures a + [c] + x == b + [c] + y && |a| == |b| ==> a == b && x == y
  {
    var s, t := a + [c] + x, b + [c] + y;
    assert s[..|a|] == a && t[..|b|] == b;
    assert s[|a| + 1..] == x && t[|b| + 1..] == y;
  }

  /**
   * Two messages share a key exactly when kind and channel are the same and booking and
   * discriminator are, an absent one counting as a dash; booking ids hold no colon, while a
   * discriminator may hold anything.
   */
  lemma DedupeKeyIsFaithful(
    kind1: string, channel1: string, booking1: Option<string>, discriminator1: Option<string>,
    kind2: string, channel2: string, booking2: Option<string>, discriminator2: Option<string>)
    requires Without(kind1, ':') && Without(channel1, ':') && Without(OrNone(booking1), ':')
    requires Without(kind2, ':') && Without(channel2, ':') && Without(OrNone(booking2), ':')
    ensures
      DedupeKey(kind1, channel1, booking1, discriminator1) == DedupeKey(kind2, channel2, booking2, discriminator2) <==>
      && kind1 == kind2 && channel1 == channel2
      && OrNone(booking1) == OrNone(booking2) && OrNone(discriminator1) == OrNone(discriminator2)
  {
    var b1, b2, d1, d2 := OrNone(booking1), OrNone(booking2), OrNone(discriminator1), OrNone(discriminator2);
    SplitsAtFirst(kind1, channel1 + ":" + (b1 + ":" + d1), kind2, channel2 + ":" + (b2 + ":" + d2), ':');
    SplitsAtFirst(channel1, b1 + ":" + d1, channel2, b2 + ":" + d2, ':');
    SplitsAtFirst(b1, d1, b2, d2, ':');
  }

  lemma DigitsHoldNoDash(n: nat)
    ensures Without(Decimal(n), '-') && Without(Decimal(n), ':')
  {
  }

  lemma DecimalIsFaithful(m: nat, n: nat)
    ensures Decimal(m) == Decimal(n) <==> m == n
  {
    ValueOfDecimal(m);
    ValueOfDecimal(n);
  }

  /**
   * A reminder's job id names one offset, one booking and one appointment time, whatever
   * characters the booking's id is made of; and so does the key it is remembered by once it was
   * sent. Moving an appointment therefore makes a new job, which the old one cannot swallow.
   */
  lemma ReminderNamesAreFaithful(o1: nat, b1: string, e1: nat, o2: nat, b2: string, e2: nat)
    ensures ReminderJobId(o1, b1, e1) == ReminderJobId(o2, b2, e2) <==> o1 == o2 && b1 == b2 && e1 == e2
    ensures Without(b1, ':') && Without(b2, ':') ==>
              (DedupeKey("REMINDER_24H", "EMAIL", Some(b1), Some(ReminderDiscriminator(o1, e1))) ==
               DedupeKey("REMINDER_24H", "EMAIL", Some(b2), Some(ReminderDiscriminator(o2, e2))) <==>
               o1 == o2 && b1 == b2 && e1 == e2)
  {
    DigitsHoldNoDash(o1);
    DigitsHoldNoDash(o2);
    DigitsHoldNoDash(e1);
    DigitsHoldNoDash(e2);
    DecimalIsFaithful(o1, o2);
    DecimalIsFaithful(e1, e2);
    var rest1, rest2 := b1 + "-" + Decimal(e1), b2 + "-" + Decimal(e2);
    SplitsAtLast(b1, Decimal(e1), b2, Decimal(e2), '-');
    SplitsAtFirst(Decimal(o1), rest1, Decimal(o2), rest2, '-');
    SamePrefix("reminder-", Decimal(o1) + "-" + rest1, Decimal(o2) + "-" + rest2);
    SplitsAtFirst(Decimal(o1), Decimal(e1), Decimal(o2), Decimal(e2), '-');
    if Without(b1, ':') && Without(b2, ':') {
      DedupeKeyIsFaithful("REMINDER_24H", "EMAIL", Some(b1), Some(ReminderDiscriminator(o1, e1)),
                          "REMINDER_24H", "EMAIL", Some(b2), Some(ReminderDiscriminator(o2, e2)));
    }
  }

  lemma SamePrefix(prefix: string, x: string, y: string)
    ensures prefix + x == prefix + y <==> x == y
  {
    assert (prefix + x)[|prefix|..] == x && (prefix + y)[|prefix|..] == y;
  }
}
