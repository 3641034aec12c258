/**
 Document numbers: a kind prefix, the first eight characters of the tenant id in upper case, and
 the sequence number padded with zeros to at least six digits.
 */
module Numbering {

  datatype Kind = PlatformInvoice | SalesInvoice | JournalEntry

  function Prefix(kind: Kind): string {
    match kind
    case PlatformInvoice => "INV-"
    case SalesInvoice => "FACT-"
    case JournalEntry => "ECR-"
  }

  function DigitChar(d: nat): char
    requires d < 10
  {
    '0' + d as char
  }

  /** `String(n)` for a natural number. */
  function Decimal(n: nat): string {
    if n < 10 then [DigitChar(n)] else Decimal(n / 10) + [DigitChar(n % 10)]
  }

  /** `s.padStart(width, "0")`: longer strings are left as they are. */
  function PadStart(s: string, width: nat): string
    decreases width - |s|
  {
    if |s| >= width then s else PadStart(['0'] + s, width)
  }

  function UpperChar(c: char): char {
    if 'a' <= c <= 'z' then c - 'a' + 'A' else c
  }

  predicate IsHexDigit(c: char) {
    '0' <= c <= '9' || 'a' <= c <= 'f'
  }

  /** The canonical text of a UUID: 32 lower-case hexadecimal digits and four hyphens. */
  predicate IsUuid(s: string) {
    |s| == 36 && forall i | 0 <= i < 36 :: if i in {8, 13, 18, 23} then s[i] == '-' else IsHexDigit(s[i])
  }

  type Tenant = s: string | IsUuid(s) witness "00000000-0000-0000-0000-000000000000"

  /** The upper-cased first eight characters of a tenant id. */
  function ShortCode(tenant: Tenant): string {
    seq(8, i requires 0 <= i < 8 => UpperChar(tenant[i]))
  }

  function Render(kind: Kind, tenant: Tenant, number: nat): string {
    Prefix(kind) + ShortCode(tenant) + "-" + PadStart(Decimal(number), 6)
  }

  /** The number a digit string stands for, leading zeros allowed. */
  function Parse(s: string): int {
    if s == [] then 0 else 10 * Parse(s[..|s| - 1]) + (s[|s| - 1] as int - '0' as int)
  }

  lemma {:induction false} ParseDecimal(n: nat)
    ensures Parse(Decimal(n)) == n
  {
    if n < 10 {
      assert Decimal(n)[..0] == [];
    } else {
      assert Decimal(n)[..|Decimal(n)| - 1] == Decimal(n / 10);
      ParseDecimal(n / 10);
    }
  }

  lemma {:induction false} ParseLeadingZero(s: string)
    ensures Parse(['0'] + s) == Parse(s)
  {
    if s == [] {
      assert (['0'] + s)[..0] == [];
    } else {
      assert (['0'] + s)[..|s|] == ['0'] + s[..|s| - 1];
      ParseLeadingZero(s[..|s| - 1]);
    }
  }

  lemma {:induction false} ParsePadded(s: string, width: nat)
    ensures Parse(PadStart(s, width)) == Parse(s)
    decreases width - |s|
  {
    if |s| < width {
      ParsePadded(['0'] + s, width);
      ParseLeadingZero(s);
    }
  }

  /** The padded number parses back to the number it was made from. */
  lemma PaddedNumberParsesBack(n: nat)
    ensures Parse(PadStart(Decimal(n), 6)) == n
  {
    ParsePadded(Decimal(n), 6);
    ParseDecimal(n);
  }

  /** The parts of a rendered number can be read back from it. */
  lemma RenderedParts(kind: Kind, tenant: Tenant, number: nat)
    ensures var r, p := Render(kind, tenant, number), |Prefix(kind)|;
      && |r| >= p + 9
      && r[..p] == Prefix(kind)
      && r[p..p + 8] == ShortCode(tenant)
      && Parse(r[p + 9..]) == number
  {
    var r, p, tail := Render(kind, tenant, number), |Prefix(kind)|, PadStart(Decimal(number), 6);
    assert |Prefix(kind) + ShortCode(tenant) + "-"| == p + 9;
    assert r[..p] == Prefix(kind);
    assert r[p..p + 8] == ShortCode(tenant);
    assert r[p + 9..] == tail;
    PaddedNumberParsesBack(number);
  }

  /** No two kinds of document share a first character, so the kind is read off the number. */
  lemma FirstCharacterTellsKind(kind: Kind, kind': Kind)
    ensures Prefix(kind)[0] == Prefix(kind')[0] <==> kind == kind'
  {
    assert Prefix(kind)[0] == match kind case PlatformInvoice => 'I' case SalesInvoice => 'F' case JournalEntry => 'E';
    assert Prefix(kind')[0] == match kind' case PlatformInvoice => 'I' case SalesInvoice => 'F' case JournalEntry => 'E';
  }

  /**
   Two numbers are equal exactly when kind, sequence number and short tenant code are. Within a
   tenant the numbers of one kind are therefore pairwise distinct; across tenants they are distinct
   as long as the first eight characters of the tenant ids are.
   */
  lemma RenderInjective(kind: Kind, tenant: Tenant, number: nat, kind': Kind, tenant': Tenant, number': nat)
    ensures Render(kind, tenant, number) == Render(kind', tenant', number')
       <==> kind == kind' && ShortCode(tenant) == ShortCode(tenant') && number == number'
  {
    if Render(kind, tenant, number) == Render(kind', tenant', number') {
      RenderedParts(kind, tenant, number);
      RenderedParts(kind', tenant', number');
      FirstCharacterTellsKind(kind, kind');
      assert Render(kind, tenant, number)[0] == Prefix(kind)[0];
      assert Render(kind', tenant', number')[0] == Prefix(kind')[0];
    }
  }

  /** Tenants whose ids agree on the first eight characters collide on every number of every kind. */
  lemma TenantsCollideExactlyWhen(tenant: Tenant, tenant': Tenant)
    ensures (exists kind, number: nat :: Render(kind, tenant, number) == Render(kind, tenant', number))
       <==> forall i | 0 <= i < 8 :: tenant[i] == tenant'[i]
  {
    if kind, number: nat :| Render(kind, tenant, number) == Render(kind, tenant', number) {
      RenderInjective(kind, tenant, number, kind, tenant', number);
      forall i | 0 <= i < 8
        ensures tenant[i] == tenant'[i]
      {
        assert ShortCode(tenant)[i] == ShortCode(tenant')[i];
        assert IsHexDigit(tenant[i]) && IsHexDigit(tenant'[i]);
      }
    }
    if forall i | 0 <= i < 8 :: tenant[i] == tenant'[i] {
      assert ShortCode(tenant) == ShortCode(tenant');
      assert Render(SalesInvoice, tenant, 1) == Render(SalesInvoice, tenant', 1);
    }
  }

  /** Every tenant has another one it collides with. */
  lemma EveryTenantMayCollide(tenant: Tenant) returns (tenant': Tenant)
    ensures tenant' != tenant
    ensures forall kind, number: nat :: Render(kind, tenant, number) == Render(kind, tenant', number)
  {
    var s := tenant[..35] + [if tenant[35] == '0' then '1' else '0'];
    assert forall i | 0 <= i < 35 :: s[i] == tenant[i];
    assert IsUuid(s);
    tenant' := s;
    assert tenant'[35] != tenant[35];
    assert ShortCode(tenant) == ShortCode(tenant');
  }

  // ---- What a number looks like ----

  predicate Digits(s: string) {
    forall i | 0 <= i < |s| :: '0' <= s[i] <= '9'
  }

  lemma {:induction false} DecimalDigits(n: nat)
    ensures Digits(Decimal(n)) && |Decimal(n)| >= 1
    ensures n < 10 ==> |Decimal(n)| == 1
  {
    if n >= 10 {
      DecimalDigits(n / 10);
    }
  }

  /** A decimal below a power of ten has no more digits than its exponent. */
  lemma {:induction false} DecimalLength(n: nat, digits: nat, power: nat)
    requires digits >= 1 && power == Power10(digits) && n < power
    ensures |Decimal(n)| <= digits
  {
    assert Power10(1) == 10 * Power10(0);
    if n >= 10 {
      DecimalLength(n / 10, digits - 1, Power10(digits - 1));
    }
  }

  function Power10(n: nat): nat {
    if n == 0 then 1 else 10 * Power10(n - 1)
  }

  lemma {:induction false} PaddedShape(s: string, width: nat)
    requires Digits(s)
    ensures Digits(PadStart(s, width)) && |PadStart(s, width)| == if |s| >= width then |s| else width
    decreases width - |s|
  {
    if |s| < width {
      PaddedShape(['0'] + s, width);
    }
  }

  /**
   A number is its kind's prefix, eight upper-case characters of the tenant id, a hyphen, and digits: six of
   them below a million, more from there on.
   */
  lemma RenderedShape(kind: Kind, tenant: Tenant, number: nat)
    ensures var prefix := match kind case PlatformInvoice => "INV-" case SalesInvoice => "FACT-" case JournalEntry => "ECR-";
      var (r, p) := (Render(kind, tenant, number), |prefix|);
      && |r| >= p + 15 && r[..p] == prefix && r[p + 8] == '-'
      && (forall i | 0 <= i < 8 ::
            if '0' <= tenant[i] <= '9' then r[p + i] == tenant[i]
            else 'A' <= r[p + i] <= 'F' && r[p + i] as int - 'A' as int == tenant[i] as int - 'a' as int)
      && Digits(r[p + 9..]) && (number < 1_000_000 ==> |r| == p + 15)
  {
    var r, p := Render(kind, tenant, number), |Prefix(kind)|;
    RenderedParts(kind, tenant, number);
    DecimalDigits(number);
    PaddedShape(Decimal(number), 6);
    if number < 1_000_000 {
      MillionIsPower();
      DecimalLength(number, 6, 1_000_000);
    }
    assert r[p + 8] == '-' && r[p + 9..] == PadStart(Decimal(number), 6);
    forall i | 0 <= i < 8
      ensures r[p + i] == UpperChar(tenant[i]) && IsHexDigit(tenant[i])
    {
      assert r[p + i] == r[p..p + 8][i];
    }
  }

  lemma MillionIsPower()
    ensures Power10(6) == 1_000_000
  {
    assert Power10(3) == 1_000;
  }
}
