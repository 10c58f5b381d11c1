/** The bounds-checked ledger: `Investimento` with an optional timestamp,
    and `SistemaInvestimentos`, which keeps its list under the slot
    `sistema_investimentos_data`, ignores out-of-range positions, rebuilds
    every record when it loads, and deletes the slot when it is cleared.
    The submit handler and the seed button are modelled as clients. */
module DefensiveLedger {
  import opened Wrappers
  import opened Records
  import opened ListOps
  import opened Text
  import opened BrowserStorage

  /** The slot used when the ledger is built without naming one. */
  const DefaultStorageKey: string := "sistema_investimentos_data"

  /** `new Investimento(nome, montante, retorno, data)`: a supplied
      non-empty timestamp is kept, a missing or empty one is replaced by
      the clock reading `now`. The amounts arrive already numeric, so the
      source's `Number(...)` leaves them as they are. */
  function NewInvestment(name: string, applied: real, expectedReturn: real,
                         stamp: Option<string>, now: string): (r: Investment)
    ensures r.name == name && r.applied == applied && r.expectedReturn == expectedReturn
    ensures stamp.Some? && stamp.value != "" ==> r.timestamp == stamp.value
    ensures stamp.None? || stamp == Some("") ==> r.timestamp == now
    ensures now != "" ==> r.timestamp != ""
  {
    var t := if stamp.Some? && stamp.value != "" then stamp.value else now;
    Investment(name, applied, expectedReturn, t)
  }

  /** The per-entry step of loading: a stored object becomes a record
      again, through the constructor, with its stored timestamp passed on. */
  function Rebuild(o: Investment, now: string): (r: Investment)
    ensures r.name == o.name && r.applied == o.applied && r.expectedReturn == o.expectedReturn
    ensures o.timestamp != "" ==> r == o
    ensures o.timestamp == "" ==> r.timestamp == now
  {
    NewInvestment(o.name, o.applied, o.expectedReturn, Some(o.timestamp), now)
  }

  /** `list.map(o => new Investimento(...))`: every stored object rebuilt,
      in the stored order. */
  function Hydrate(list: seq<Investment>, now: string): (r: seq<Investment>)
    ensures |r| == |list|
  {
    if list == [] then [] else [Rebuild(list[0], now)] + Hydrate(list[1..], now)
  }

  /** Rebuilding keeps every entry's name and amounts, keeps every
      non-empty timestamp and stamps the entries that had none with `now`. */
  lemma {:induction false} HydrateAt(list: seq<Investment>, now: string, i: nat)
    requires i < |list|
    ensures Hydrate(list, now)[i].name == list[i].name
    ensures Hydrate(list, now)[i].applied == list[i].applied
    ensures Hydrate(list, now)[i].expectedReturn == list[i].expectedReturn
    ensures Hydrate(list, now)[i].timestamp
            == if list[i].timestamp != "" then list[i].timestamp else now
  {
    if i > 0 {
      HydrateAt(list[1..], now, i - 1);
    }
  }

  /** A list whose entries all carry timestamps comes back unchanged. */
  lemma {:induction false} HydrateKeepsStamped(list: seq<Investment>, now: string)
    requires AllStamped(list)
    ensures Hydrate(list, now) == list
  {
    if list != [] {
      HydrateKeepsStamped(list[1..], now);
    }
  }

  /** With a real clock reading, every loaded entry carries a timestamp. */
  lemma HydrateStamps(list: seq<Investment>, now: string)
    requires now != ""
    ensures AllStamped(Hydrate(list, now))
  {
    forall i | 0 <= i < |list|
      ensures Hydrate(list, now)[i].timestamp != ""
    {
      HydrateAt(list, now, i);
    }
  }

  /** Loading what was just loaded changes nothing more. */
  lemma HydrateIdempotent(list: seq<Investment>, now: string, later: string)
    requires now != ""
    ensures Hydrate(Hydrate(list, now), later) == Hydrate(list, now)
  {
    HydrateStamps(list, now);
    HydrateKeepsStamped(Hydrate(list, now), later);
  }

  /** Rebuilding keeps, entry by entry, every name and both amounts. */
  lemma HydrateFields(list: seq<Investment>, now: string)
    ensures forall i :: 0 <= i < |list| ==>
              Hydrate(list, now)[i].name == list[i].name
              && Hydrate(list, now)[i].applied == list[i].applied
              && Hydrate(list, now)[i].expectedReturn == list[i].expectedReturn
  {
    forall i | 0 <= i < |list|
      ensures Hydrate(list, now)[i].name == list[i].name
      ensures Hydrate(list, now)[i].applied == list[i].applied
      ensures Hydrate(list, now)[i].expectedReturn == list[i].expectedReturn
    {
      HydrateAt(list, now, i);
    }
  }

  /** `_carregar` applied to what `getItem` returned: no slot gives the
      empty list; a stored list gives the same number of entries, each
      with its stored name and amounts. */
  function Load(slot: Option<seq<Investment>>, now: string): (r: seq<Investment>)
    ensures slot.None? ==> r == []
    ensures slot.Some? ==> |r| == |slot.value|
    ensures slot.Some? ==> forall i :: 0 <= i < |slot.value| ==>
              r[i].name == slot.value[i].name
              && r[i].applied == slot.value[i].applied
              && r[i].expectedReturn == slot.value[i].expectedReturn
  {
    match slot
    case None => []
    case Some(list) => HydrateFields(list, now); Hydrate(list, now)
  }

  /** Saving a list of timestamped records and loading it back gives the
      same records in the same order. */
  lemma LoadAfterSave(list: seq<Investment>, now: string)
    requires AllStamped(list)
    ensures Load(Some(list), now) == list
  {
    HydrateKeepsStamped(list, now);
  }

  class InvestmentSystem {
    const storageKey: string
    const storage: LocalStorage
    var investments: seq<Investment>

    /** The slot mirrors the list: it holds exactly the list, or it is
        absent and the list is empty. */
    ghost predicate Persisted()
      reads this, storage
    {
      if storageKey in storage.slots then storage.slots[storageKey] == investments
      else investments == []
    }

    /** `new SistemaInvestimentos(storageKey)`: the list is loaded from the
        slot; storage is only read. */
    constructor(storage: LocalStorage, storageKey: string, now: string)
      ensures this.storage == storage && this.storageKey == storageKey
      ensures investments == Load(storage.GetItem(storageKey), now)
      ensures storageKey in storage.slots && AllStamped(storage.slots[storageKey]) ==> Persisted()
      ensures storageKey !in storage.slots ==> Persisted()
      ensures now != "" ==> AllStamped(investments)
    {
      this.storage := storage;
      this.storageKey := storageKey;
      investments := Load(storage.GetItem(storageKey), now);
      new;
      if storageKey in storage.slots {
        if AllStamped(storage.slots[storageKey]) {
          LoadAfterSave(storage.slots[storageKey], now);
        }
        if now != "" {
          HydrateStamps(storage.slots[storageKey], now);
        }
      }
    }

    /** `totalInvestido()`: the fold over the list equals the sum of the
        amounts applied; 0 for an empty ledger. */
    function TotalInvested(): (t: real)
      reads this
      ensures t == Sum(investments, Applied)
      ensures investments == [] ==> t == 0.0
    {
      Reduce(investments, Applied, 0.0)
    }

    /** `totalRetornoEsperado()`: the fold over the list equals the sum of
        the expected returns; 0 for an empty ledger. */
    function TotalExpectedReturn(): (t: real)
      reads this
      ensures t == Sum(investments, ExpectedReturn)
      ensures investments == [] ==> t == 0.0
    {
      Reduce(investments, ExpectedReturn, 0.0)
    }

    /** `_salvar()`: the ledger's slot is overwritten with the whole list;
        no other slot and nothing in the ledger changes. */
    method Save()
      modifies storage
      ensures storage.slots == old(storage.slots)[storageKey := investments]
      ensures Persisted()
    {
      storage.SetItem(storageKey, investments);
    }

    /** `adicionar(inv)`: `inv` goes to the end, earlier entries keep their
        places, the totals grow by its amounts and the slot is rewritten. */
    method Add(inv: Investment)
      modifies this, storage
      ensures investments == old(investments) + [inv]
      ensures storage.slots == old(storage.slots)[storageKey := investments]
      ensures Persisted()
      ensures TotalInvested() == old(TotalInvested()) + inv.applied
      ensures TotalExpectedReturn() == old(TotalExpectedReturn()) + inv.expectedReturn
      ensures old(AllStamped(investments)) && inv.timestamp != "" ==> AllStamped(investments)
    {
      SumAppend(investments, inv, Applied);
      SumAppend(investments, inv, ExpectedReturn);
      investments := investments + [inv];
      Save();
    }

    /** `remover(index)`: an index inside the list deletes exactly that
        entry, lowers the totals by its amounts and rewrites the slot; any
        other index changes neither the list nor storage. */
    method Remove(index: int)
      modifies this, storage
      ensures 0 <= index < |old(investments)| ==>
                investments == RemoveAt(old(investments), index)
                && storage.slots == old(storage.slots)[storageKey := investments]
                && Persisted()
                && TotalInvested() == old(TotalInvested()) - old(investments)[index].applied
                && TotalExpectedReturn()
                   == old(TotalExpectedReturn()) - old(investments)[index].expectedReturn
      ensures !(0 <= index < |old(investments)|) ==>
                investments == old(investments) && storage.slots == old(storage.slots)
      ensures old(AllStamped(investments)) ==> AllStamped(investments)
    {
      if 0 <= index < |investments| {
        SumWithout(investments, index, Applied);
        SumWithout(investments, index, ExpectedReturn);
        investments := RemoveAt(investments, index);
        Save();
      }
    }

    /** `atualizar(index, novoInv)`: an index inside the list replaces
        exactly that entry, keeps the length and every other entry, and
        rewrites the slot; any other index changes neither the list nor
        storage. */
    method Update(index: int, inv: Investment)
      modifies this, storage
      ensures 0 <= index < |old(investments)| ==>
                investments == old(investments)[index := inv]
                && storage.slots == old(storage.slots)[storageKey := investments]
                && Persisted()
                && TotalInvested()
                   == old(TotalInvested()) - old(investments)[index].applied + inv.applied
                && TotalExpectedReturn()
                   == old(TotalExpectedReturn()) - old(investments)[index].expectedReturn
                      + inv.expectedReturn
      ensures !(0 <= index < |old(investments)|) ==>
                investments == old(investments) && storage.slots == old(storage.slots)
      ensures old(AllStamped(investments)) && inv.timestamp != "" ==> AllStamped(investments)
    {
      if 0 <= index < |investments| {
        SumReplace(investments, index, inv, Applied);
        SumReplace(investments, index, inv, ExpectedReturn);
        investments := investments[index := inv];
        Save();
      }
    }

    /** `limparTudo()`: the list is emptied and the slot deleted (not
        overwritten with an empty list), so a later load finds nothing. */
    method ClearAll()
      modifies this, storage
      ensures investments == []
      ensures storage.slots == old(storage.slots) - {storageKey}
      ensures Persisted()
      ensures forall now :: Load(storage.GetItem(storageKey), now) == []
    {
      investments := [];
      storage.RemoveItem(storageKey);
    }

    /** A restart against the same storage: a ledger whose slot mirrors
        its timestamped list loads that very list back. */
    lemma RestartReproduces(now: string)
      requires Persisted() && AllStamped(investments)
      ensures Load(storage.GetItem(storageKey), now) == investments
    {
      if storageKey in storage.slots {
        LoadAfterSave(investments, now);
      }
    }
  }

  /** The page's ledger, `new SistemaInvestimentos()`: built over the
      default slot, with the list loaded from it. */
  method NewPageLedger(storage: LocalStorage, now: string) returns (sys: InvestmentSystem)
    ensures fresh(sys)
    ensures sys.storage == storage && sys.storageKey == DefaultStorageKey
    ensures sys.investments == Load(storage.GetItem(DefaultStorageKey), now)
    ensures now != "" ==> AllStamped(sys.investments)
  {
    sys := new InvestmentSystem(storage, DefaultStorageKey, now);
  }

  /** The submit guard of `handleAddSubmit`: the trimmed name must be
      non-empty and both amounts must have parsed (None stands for NaN);
      any number, zero and negative ones included, is accepted. The record
      gets the clock reading as its timestamp. */
  function ValidateSubmission(rawName: string, amount: Option<real>,
                              expectedReturn: Option<real>, now: string): (r: Option<Investment>)
    ensures r.Some? <==> (exists j :: 0 <= j < |rawName| && !IsWhiteSpace(rawName[j]))
                         && amount.Some? && expectedReturn.Some?
    ensures r.Some? ==> r.value.name == Trim(rawName) && r.value.name != ""
                        && r.value.applied == amount.value
                        && r.value.expectedReturn == expectedReturn.value
                        && r.value.timestamp == now
  {
    TrimEmptyIffBlank(rawName);
    var name := Trim(rawName);
    if name == [] || amount.None? || expectedReturn.None? then None
    else Some(NewInvestment(name, amount.value, expectedReturn.value, None, now))
  }

  /** `handleAddSubmit`: a valid submission is appended to the ledger, an
      invalid one (the alert path) changes nothing. */
  method HandleAddSubmit(sys: InvestmentSystem, rawName: string, amount: Option<real>,
                         expectedReturn: Option<real>, now: string) returns (added: bool)
    modifies sys, sys.storage
    ensures var v := ValidateSubmission(rawName, amount, expectedReturn, now);
            added == v.Some?
            && (added ==> sys.investments == old(sys.investments) + [v.value]
                          && sys.storage.slots == old(sys.storage.slots)[sys.storageKey := sys.investments])
            && (!added ==> sys.investments == old(sys.investments)
                           && sys.storage.slots == old(sys.storage.slots))
    ensures now != "" && old(AllStamped(sys.investments)) ==> AllStamped(sys.investments)
  {
    var v := ValidateSubmission(rawName, amount, expectedReturn, now);
    added := v.Some?;
    if added {
      sys.Add(v.value);
    }
  }

  /** The three examples the seed button adds, all stamped `now`. */
  function SeedExamples(now: string): (r: seq<Investment>)
    ensures |r| == 3
    ensures now != "" ==> AllStamped(r)
    ensures Sum(r, Applied) == 35000.0 && Sum(r, ExpectedReturn) == 42900.0
  {
    var c := [NewInvestment("Ações Setor X", 20000.0, 26000.0, None, now)];
    var b := [NewInvestment("Tesouro Prefixado", 5000.0, 5400.0, None, now)] + c;
    var r := [NewInvestment("Fundo Alpha", 10000.0, 11500.0, None, now)] + b;
    assert c[1..] == [] && b[1..] == c && r[1..] == b;
    assert Sum(c, Applied) == AmountOf(c[0], Applied) + Sum(c[1..], Applied);
    assert Sum(c, ExpectedReturn) == AmountOf(c[0], ExpectedReturn) + Sum(c[1..], ExpectedReturn);
    assert Sum(c, Applied) == 20000.0 && Sum(c, ExpectedReturn) == 26000.0;
    assert Sum(b, Applied) == 25000.0 && Sum(b, ExpectedReturn) == 31400.0;
    r
  }

  /** The seed button: `exemplos.forEach(e => sistema.adicionar(e))`. The
      examples land at the end in order and the totals rise by 35000 and
      42900. */
  method Seed(sys: InvestmentSystem, now: string)
    modifies sys, sys.storage
    ensures sys.investments == old(sys.investments) + SeedExamples(now)
    ensures sys.storage.slots == old(sys.storage.slots)[sys.storageKey := sys.investments]
    ensures sys.Persisted()
    ensures sys.TotalInvested() == old(sys.TotalInvested()) + 35000.0
    ensures sys.TotalExpectedReturn() == old(sys.TotalExpectedReturn()) + 42900.0
    ensures now != "" && old(AllStamped(sys.investments)) ==> AllStamped(sys.investments)
  {
    var examples := SeedExamples(now);
    SumConcat(sys.investments, examples, Applied);
    SumConcat(sys.investments, examples, ExpectedReturn);
    for i := 0 to |examples|
      invariant sys.investments == old(sys.investments) + examples[..i]
      invariant i == 0 ==> sys.storage.slots == old(sys.storage.slots)
      invariant i > 0 ==> sys.storage.slots == old(sys.storage.slots)[sys.storageKey := sys.investments]
      invariant i > 0 ==> sys.Persisted()
      invariant now != "" && old(AllStamped(sys.investments)) ==> AllStamped(sys.investments)
    {
      assert examples[..i + 1] == examples[..i] + [examples[i]];
      sys.Add(examples[i]);
    }
    assert examples[..|examples|] == examples;
  }

  /** Adding an entry and then removing the last position leaves the list
      and both totals as they were. */
  method AddThenRemoveLast(sys: InvestmentSystem, inv: Investment)
    modifies sys, sys.storage
    ensures sys.investments == old(sys.investments)
    ensures sys.storage.slots == old(sys.storage.slots)[sys.storageKey := old(sys.investments)]
    ensures sys.TotalInvested() == old(sys.TotalInvested())
    ensures sys.TotalExpectedReturn() == old(sys.TotalExpectedReturn())
  {
    var n := |sys.investments|;
    sys.Add(inv);
    sys.Remove(n);
    RemoveLastUndoesAppend(old(sys.investments), inv);
  }
}
