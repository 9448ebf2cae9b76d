/**
 * The refresh of the schedule from the remote database: four typed reads,
 * each of which may overwrite one field of the schedule in RAM.
 */
module ConfigSync {
  import opened Wrappers
  import opened ConfigStore

  /** One typed read from the database: it failed, or it returned a value with its type tag. */
  datatype Fetch<T> = Failed | Fetched(dataType: string, value: T)

  /** The answers to the four reads, under `qtdRacao`, `horario1`, `horario2` and `horario3`. */
  datatype RemoteReads = RemoteReads(
    qtdRacao: Fetch<Int32>,
    horario1: Fetch<string>,
    horario2: Fetch<string>,
    horario3: Fetch<string>)

  /** The database stores the amount of food; one portion unit is this many of it. */
  const PortionUnit: int := 50

  /** C++ integer division of `a` by a positive `b`: the quotient is truncated toward zero. */
  function TruncDiv(a: int, b: int): (q: int)
    requires b > 0
    ensures 0 <= a ==> 0 <= q <= a && q * b <= a < q * b + b
    ensures a < 0 ==> a <= q <= 0 && q * b - b < a <= q * b
  {
    if 0 <= a then
      DivBounds(a, b);
      a / b
    else
      DivBounds(-a, b);
      -((-a) / b)
  }

  /** Euclidean division of a natural number: quotient between 0 and `n`, remainder below `b`. */
  lemma DivBounds(n: int, b: int)
    requires 0 <= n && 0 < b
    ensures 0 <= n / b <= n
    ensures (n / b) * b <= n < (n / b) * b + b
  {
    var q, m := n / b, n % b;
    assert n == q * b + m && 0 <= m < b;
    MulPositive(q, b);
  }

  /** A product with a positive factor is at least the other factor. */
  lemma {:induction false} MulPositive(x: nat, b: int)
    requires 0 < b
    ensures x <= x * b
  {
    if x > 0 {
      MulPositive(x - 1, b);
      assert x * b == (x - 1) * b + b;
    }
  }

  /** The value of a read, when the read succeeded and carried the expected type tag. */
  function Accepted<T>(f: Fetch<T>, tag: string): Option<T> {
    if f.Fetched? && f.dataType == tag then Some(f.value) else None
  }

  /** The portion count a raw `qtdRacao` value converts to. */
  function PortionsOf(raw: Int32): Int32 {
    TruncDiv(raw, PortionUnit)
  }

  /** The schedule after the four reads: each field is overwritten by its own accepted read, if any. */
  function Sync(c: Config, r: RemoteReads): Config {
    Config(
      match Accepted(r.qtdRacao, "int") case Some(raw) => PortionsOf(raw) case None => c.qtdPorcPadrao,
      Accepted(r.horario1, "string").GetOr(c.hrPorc1),
      Accepted(r.horario2, "string").GetOr(c.hrPorc2),
      Accepted(r.horario3, "string").GetOr(c.hrPorc3))
  }

  /** The amount is converted by truncating division: 150 gives 3, 40 gives 0, and -40 gives 0, not -1. */
  lemma PortionConversion(c: Config, r: RemoteReads)
    ensures r.qtdRacao == Fetched("int", 150) ==> Sync(c, r).qtdPorcPadrao == 3
    ensures r.qtdRacao == Fetched("int", 40) ==> Sync(c, r).qtdPorcPadrao == 0
    ensures r.qtdRacao == Fetched("int", -40) ==> Sync(c, r).qtdPorcPadrao == 0
    ensures r.qtdRacao == Fetched("int", -149) ==> Sync(c, r).qtdPorcPadrao == -2
  {
  }

  /**
   * A field is overwritten exactly when its own read succeeded with the
   * expected tag; otherwise it keeps the value it had in RAM.
   */
  lemma SyncOverwritesOnlyAccepted(c: Config, r: RemoteReads)
    ensures Accepted(r.qtdRacao, "int").None? ==> Sync(c, r).qtdPorcPadrao == c.qtdPorcPadrao
    ensures Accepted(r.horario1, "string").None? ==> Sync(c, r).hrPorc1 == c.hrPorc1
    ensures Accepted(r.horario2, "string").None? ==> Sync(c, r).hrPorc2 == c.hrPorc2
    ensures Accepted(r.horario3, "string").None? ==> Sync(c, r).hrPorc3 == c.hrPorc3
    ensures r.qtdRacao.Fetched? && r.qtdRacao.dataType == "int" ==>
      Sync(c, r).qtdPorcPadrao == TruncDiv(r.qtdRacao.value, 50)
    ensures r.horario1.Fetched? && r.horario1.dataType == "string" ==> Sync(c, r).hrPorc1 == r.horario1.value
    ensures r.horario2.Fetched? && r.horario2.dataType == "string" ==> Sync(c, r).hrPorc2 == r.horario2.value
    ensures r.horario3.Fetched? && r.horario3.dataType == "string" ==> Sync(c, r).hrPorc3 == r.horario3.value
  {
  }

  /**
   * The four fields are independent: each synced field depends only on its
   * own read and its own previous value, never on the other reads or fields.
   */
  lemma SyncFieldsIndependent(c: Config, d: Config, r: RemoteReads, s: RemoteReads)
    ensures r.qtdRacao == s.qtdRacao && c.qtdPorcPadrao == d.qtdPorcPadrao ==>
      Sync(c, r).qtdPorcPadrao == Sync(d, s).qtdPorcPadrao
    ensures r.horario1 == s.horario1 && c.hrPorc1 == d.hrPorc1 ==> Sync(c, r).hrPorc1 == Sync(d, s).hrPorc1
    ensures r.horario2 == s.horario2 && c.hrPorc2 == d.hrPorc2 ==> Sync(c, r).hrPorc2 == Sync(d, s).hrPorc2
    ensures r.horario3 == s.horario3 && c.hrPorc3 == d.hrPorc3 ==> Sync(c, r).hrPorc3 == Sync(d, s).hrPorc3
  {
  }

  /** A read of `horario2` that fails while the other three succeed changes every field but `hrPorc2`. */
  lemma SyncPartialFailure(c: Config, raw: Int32, h1: string, h3: string)
    ensures Sync(c, RemoteReads(Fetched("int", raw), Fetched("string", h1), Failed, Fetched("string", h3)))
         == Config(PortionsOf(raw), h1, c.hrPorc2, h3)
  {
  }

  /** Applying the same answers a second time changes nothing more. */
  lemma SyncIdempotent(c: Config, r: RemoteReads)
    ensures Sync(Sync(c, r), r) == Sync(c, r)
  {
  }
}
