/**
 * The account address value type: a dotted
 * `gateway_uuid.vault_uuid.user_uuid.wallet_address` string, kept as given,
 * with projections of its first four dot-separated parts.
 */
module Account {
  import opened Js

  const NotStringMessage := "account should be string in format: gateway_uuid.vault_uuid.user_uuid.wallet_address"

  function BadFormatMessage(address: string): string {
    "address format is invalid: " + address + " should be gateway_uuid.vault_uuid.user_uuid.wallet_address"
  }

  /**
   * A parsed address. Only the raw string is stored; the parts are its split
   * on '.', as the accessors of the source recompute them from that split.
   */
  datatype Address = Address(address: string) {

    function Parts(): seq<string> {
      Split(address, '.')
    }

    ghost predicate Valid() {
      |Parts()| >= 4
    }

    /** The gateway uuid: the text before the first '.'. */
    function Gateway(): (g: string)
      requires Valid()
      ensures '.' !in g && |g| < |address| && address[..|g|] == g && address[|g|] == '.'
    {
      JoinSplit(address, '.');
      assert address == Parts()[0] + "." + Join(Parts()[1..], '.');
      Parts()[0]
    }

    /** The vault uuid, the user uuid and the wallet address: whole parts, free of '.'. */
    function Vault(): (v: string) requires Valid() ensures '.' !in v { Parts()[1] }
    function User(): (u: string) requires Valid() ensures '.' !in u { Parts()[2] }
    function Wallet(): (w: string) requires Valid() ensures '.' !in w { Parts()[3] }

    /** `gateway.vault`, which splits back into the first two parts. */
    function Ledger(): (l: string)
      requires Valid()
      ensures Split(l, '.') == Parts()[..2]
    {
      var p := Parts();
      SplitJoin(p[..2], '.');
      assert p[..2][1..] == [p[1]];
      assert Join(p[..2], '.') == p[0] + "." + p[1];
      Gateway() + "." + Vault()
    }

    /** `gateway.vault.user`, which splits back into the first three parts. */
    function AccountName(): (n: string)
      requires Valid()
      ensures Split(n, '.') == Parts()[..3]
    {
      var p := Parts();
      SplitJoin(p[..3], '.');
      assert p[..3][1..] == [p[1], p[2]] && [p[1], p[2]][1..] == [p[2]];
      assert Join([p[1], p[2]], '.') == p[1] + "." + p[2];
      assert Join(p[..3], '.') == p[0] + "." + (p[1] + "." + p[2]);
      assert Ledger() + "." + User() == p[0] + "." + (p[1] + "." + p[2]);
      Ledger() + "." + User()
    }

    /** The ledger prefix, ending in '.'. */
    function Prefix(): (x: string)
      requires Valid()
      ensures |x| >= 1 && x[|x| - 1] == '.'
    {
      Ledger() + "."
    }

    /** The raw string, which splits into the same parts. */
    function ToString(): (s: string)
      ensures Split(s, '.') == Parts()
    {
      address
    }
  }

  /** The exported constructor: reject a non-string and a string of fewer than four parts. */
  function Parse(raw: Value): (r: Result<Address>)
    ensures !raw.Str? ==> r == Err(InvalidFields(NotStringMessage))
    ensures raw.Str? ==> (r.Ok? <==> |Split(raw.s, '.')| >= 4)
    ensures raw.Str? && r.Err? ==> r.error == InvalidFields(BadFormatMessage(raw.s))
    ensures r.Ok? ==> r.value.Valid() && r.value.ToString() == raw.s
  {
    if !raw.Str? then Err(InvalidFields(NotStringMessage))
    else if |Split(raw.s, '.')| < 4 then Err(InvalidFields(BadFormatMessage(raw.s)))
    else Ok(Address(raw.s))
  }

  /** Four dot-free segments are accepted and projected back unchanged, empty ones included. */
  lemma FourSegmentsAccepted(g: string, v: string, u: string, w: string)
    requires '.' !in g && '.' !in v && '.' !in u && '.' !in w
    ensures var r := Parse(Str(g + "." + v + "." + u + "." + w));
      && r.Ok?
      && r.value.Gateway() == g && r.value.Vault() == v && r.value.User() == u && r.value.Wallet() == w
  {
    var parts := [g, v, u, w];
    SplitJoin(parts, '.');
    assert parts[1..] == [v, u, w] && parts[1..][1..] == [u, w] && parts[1..][1..][1..] == [w];
    assert Join([u, w], '.') == u + "." + w;
    assert Join([v, u, w], '.') == v + "." + (u + "." + w);
    assert Join(parts, '.') == g + "." + (v + "." + (u + "." + w));
    assert g + "." + v + "." + u + "." + w == g + "." + (v + "." + (u + "." + w));
  }

  /** "..." has four empty segments and is accepted. */
  lemma EmptySegmentsAccepted()
    ensures Parse(Str("...")).Ok?
    ensures Parse(Str("...")).value.Wallet() == ""
  {
    FourSegmentsAccepted("", "", "", "");
  }

  /** Fewer than four segments are rejected with the format message. */
  lemma FewSegmentsRejected(parts: seq<string>)
    requires 1 <= |parts| < 4
    requires forall i | 0 <= i < |parts| :: '.' !in parts[i]
    ensures Parse(Str(Join(parts, '.'))) == Err(InvalidFields(BadFormatMessage(Join(parts, '.'))))
  {
    SplitJoin(parts, '.');
  }

  /** Parsing the string an address prints gives back the same address, accessor for accessor. */
  lemma ToStringRoundTrip(a: Address)
    requires a.Valid()
    ensures Parse(Str(a.ToString())) == Ok(a)
    ensures var b := Parse(Str(a.ToString())).value;
      b.Gateway() == a.Gateway() && b.Vault() == a.Vault() && b.User() == a.User()
      && b.Wallet() == a.Wallet() && b.AccountName() == a.AccountName() && b.Prefix() == a.Prefix()
  {
  }

  /** Parts beyond the fourth never affect a projection. */
  lemma ExtraPartsIgnored(a: Address, b: Address)
    requires a.Valid() && b.Valid()
    requires a.Parts()[..4] == b.Parts()[..4]
    ensures a.Gateway() == b.Gateway() && a.Vault() == b.Vault()
    ensures a.User() == b.User() && a.Wallet() == b.Wallet()
    ensures a.Ledger() == b.Ledger() && a.AccountName() == b.AccountName() && a.Prefix() == b.Prefix()
  {
    assert a.Parts()[0] == a.Parts()[..4][0] && b.Parts()[0] == b.Parts()[..4][0];
    assert a.Parts()[1] == a.Parts()[..4][1] && b.Parts()[1] == b.Parts()[..4][1];
    assert a.Parts()[2] == a.Parts()[..4][2] && b.Parts()[2] == b.Parts()[..4][2];
    assert a.Parts()[3] == a.Parts()[..4][3] && b.Parts()[3] == b.Parts()[..4][3];
  }

  /** The raw string is the account name, the wallet, and then whatever parts follow the fourth. */
  lemma {:induction false} AddressLayout(a: Address)
    requires a.Valid()
    ensures |a.Parts()| == 4 ==> a.AccountName() + "." + a.Wallet() == a.address
    ensures |a.Parts()| > 4 ==> a.AccountName() + "." + a.Wallet() + "." + Join(a.Parts()[4..], '.') == a.address
  {
    var p := a.Parts();
    assert a.AccountName() + "." + a.Wallet() == p[0] + "." + p[1] + "." + p[2] + "." + p[3];
    JoinSplit(a.address, '.');
    assert p[1..][1..] == p[2..] && p[2..][1..] == p[3..];
    var tail := Join(p[3..], '.');
    if |p| == 4 {
      assert tail == p[3];
    } else {
      assert p[3..][1..] == p[4..];
      assert tail == p[3] + "." + Join(p[4..], '.');
    }
    assert Join(p[2..], '.') == p[2] + "." + tail;
    assert Join(p[1..], '.') == p[1] + "." + (p[2] + "." + tail);
    assert Join(p, '.') == p[0] + "." + (p[1] + "." + (p[2] + "." + tail));
  }

  /** The prefix is the ledger followed by '.', and it begins the raw string. */
  lemma PrefixBeginsAddress(a: Address)
    requires a.Valid()
    ensures |a.Prefix()| >= 1 && a.Prefix()[|a.Prefix()| - 1] == '.'
    ensures a.Prefix() <= a.address
    ensures a.Prefix() == a.Ledger() + "."
  {
    AddressLayout(a);
    var rest := if |a.Parts()| == 4 then "" else "." + Join(a.Parts()[4..], '.');
    assert a.address == a.Prefix() + (a.User() + "." + a.Wallet() + rest);
  }
}
