/** The unchecked ledger: `Investimento` always stamped with the clock, and
    `SistemaInvestimentos`, which keeps its list under the slot
    `investimentos`, loads the stored list as it is, and removes with an
    unguarded `splice(index, 1)` followed by a save. The submit handler and
    the seed button are modelled as clients. */
module UncheckedLedger {
  import opened Wrappers
  import opened Records
  import opened ListOps
  import opened Text
  import opened BrowserStorage

  /** The one slot this ledger uses. */
  const StorageKey: string := "investimentos"

  /** `new Investimento(nome, montante, retorno)`: every record is stamped
      with the clock reading `now`; the amounts arrive already numeric. */
  function NewInvestment(name: string, applied: real, expectedReturn: real, now: string)
    : (r: Investment)
    ensures r.name == name && r.applied == applied && r.expectedReturn == expectedReturn
    ensures r.timestamp == now
  {
    Investment(name, applied, expectedReturn, now)
  }

  /** `JSON.parse(localStorage.getItem(chave)) || []`: no slot gives the
      empty list, a stored list is taken as it is, entries unchanged. */
  function Load(slot: Option<seq<Investment>>): (r: seq<Investment>)
    ensures slot.None? ==> r == []
    ensures slot.Some? ==> r == slot.value
  {
    match slot
    case None => []
    case Some(list) => list
  }

  class InvestmentSystem {
    const key: string
    const storage: LocalStorage
    var list: seq<Investment>

    /** The slot mirrors the list: it holds exactly the list, or it is
        absent and the list is empty. */
    ghost predicate Persisted()
      reads this, storage
    {
      if key in storage.slots then storage.slots[key] == list else list == []
    }

    /** `new SistemaInvestimentos()`: the list is the stored one, or empty
        when the slot is absent; storage is only read. */
    constructor(storage: LocalStorage)
      ensures this.storage == storage && key == StorageKey
      ensures list == Load(storage.GetItem(StorageKey))
      ensures Persisted()
    {
      this.storage := storage;
      key := StorageKey;
      list := Load(storage.GetItem(StorageKey));
    }

    /** `totalInvestido()`: the fold over the list equals the sum of the
        amounts applied; 0 for an empty ledger. */
    function TotalInvested(): (t: real)
      reads this
      ensures t == Sum(list, Applied)
      ensures list == [] ==> t == 0.0
    {
      Reduce(list, Applied, 0.0)
    }

    /** `totalRetorno()`: the fold over the list equals the sum of the
        expected returns; 0 for an empty ledger. */
    function TotalReturn(): (t: real)
      reads this
      ensures t == Sum(list, ExpectedReturn)
      ensures list == [] ==> t == 0.0
    {
      Reduce(list, ExpectedReturn, 0.0)
    }

    /** `salvar()`: the slot is overwritten with the whole list; no other
        slot and nothing in the ledger changes. */
    method Save()
      modifies storage
      ensures storage.slots == old(storage.slots)[key := list]
      ensures Persisted()
    {
      storage.SetItem(key, list);
    }

    /** `adicionar(inv)`: `inv` goes to the end, earlier entries keep their
        places, the totals grow by its amounts and the slot is rewritten. */
    method Add(inv: Investment)
      modifies this, storage
      ensures list == old(list) + [inv]
      ensures storage.slots == old(storage.slots)[key := list]
      ensures Persisted()
      ensures TotalInvested() == old(TotalInvested()) + inv.applied
      ensures TotalReturn() == old(TotalReturn()) + inv.expectedReturn
    {
      SumAppend(list, inv, Applied);
      SumAppend(list, inv, ExpectedReturn);
      list := list + [inv];
      Save();
    }

    /** `remover(index)`: `splice(index, 1)` with no guard, then a save that
        always happens. An index in range deletes that entry; one at or past
        the end deletes nothing but the slot is still rewritten; a negative
        one counts back from the end, and one below minus the length
        deletes the first entry. */
    method Remove(index: int)
      modifies this, storage
      ensures list == SpliceOne(old(list), index)
      ensures storage.slots == old(storage.slots)[key := list]
      ensures Persisted()
      ensures 0 <= index < |old(list)| ==>
                TotalInvested() == old(TotalInvested()) - old(list)[index].applied
                && TotalReturn() == old(TotalReturn()) - old(list)[index].expectedReturn
      ensures |old(list)| <= index ==>
                list == old(list)
                && TotalInvested() == old(TotalInvested())
                && TotalReturn() == old(TotalReturn())
    {
      if 0 <= index < |list| {
        SumWithout(list, index, Applied);
        SumWithout(list, index, ExpectedReturn);
      }
      list := SpliceOne(list, index);
      Save();
    }

    /** A restart against the same storage loads back exactly the list. */
    lemma RestartReproduces()
      requires Persisted()
      ensures Load(storage.GetItem(key)) == list
    {
    }
  }

  /** The submit guard as written, `!nome || montante <= 0 || retorno <= 0`,
      with None standing for NaN. Because every comparison with NaN is
      false, an amount that did not parse is not rejected: the guard lets a
      submission through exactly when the name has a non-white-space
      character and each amount is NaN or above zero. */
  function AcceptedAsWritten(rawName: string, amount: Option<real>,
                             expectedReturn: Option<real>): (accepted: bool)
    ensures accepted <==> (exists j :: 0 <= j < |rawName| && !IsWhiteSpace(rawName[j]))
                          && (amount.None? || amount.value > 0.0)
                          && (expectedReturn.None? || expectedReturn.value > 0.0)
  {
    TrimEmptyIffBlank(rawName);
    !(Trim(rawName) == []
      || (amount.Some? && amount.value <= 0.0)
      || (expectedReturn.Some? && expectedReturn.value <= 0.0))
  }

  /** Witness of the gap: a named submission whose amount is not a number
      passes the guard as written. */
  lemma NaNAmountPassesGuard()
    ensures AcceptedAsWritten("Fundo Alpha", None, Some(12000.0))
  {
    assert !IsWhiteSpace('F');
  }

  /** The guard as intended ("Valores inválidos!" for anything else): the
      trimmed name is non-empty and both amounts are numbers above zero.
      On numeric input it agrees with the guard as written. */
  function ValidateSubmission(rawName: string, amount: Option<real>,
                              expectedReturn: Option<real>, now: string): (r: Option<Investment>)
    ensures r.Some? <==> (exists j :: 0 <= j < |rawName| && !IsWhiteSpace(rawName[j]))
                         && amount.Some? && amount.value > 0.0
                         && expectedReturn.Some? && expectedReturn.value > 0.0
    ensures amount.Some? && expectedReturn.Some? ==>
              (r.Some? <==> AcceptedAsWritten(rawName, amount, expectedReturn))
    ensures r.Some? ==> r.value.name == Trim(rawName) && r.value.name != ""
                        && r.value.applied == amount.value
                        && r.value.expectedReturn == expectedReturn.value
                        && r.value.timestamp == now
  {
    TrimEmptyIffBlank(rawName);
    var name := Trim(rawName);
    if name == [] || amount.None? || amount.value <= 0.0
       || expectedReturn.None? || expectedReturn.value <= 0.0
    then None
    else Some(NewInvestment(name, amount.value, expectedReturn.value, now))
  }

  /** The form's submit handler: a valid submission is appended to the
      ledger, an invalid one (the alert path) changes nothing. */
  method HandleSubmit(sys: InvestmentSystem, rawName: string, amount: Option<real>,
                      expectedReturn: Option<real>, now: string) returns (added: bool)
    modifies sys, sys.storage
    ensures var v := ValidateSubmission(rawName, amount, expectedReturn, now);
            added == v.Some?
            && (added ==> sys.list == old(sys.list) + [v.value]
                          && sys.storage.slots == old(sys.storage.slots)[sys.key := sys.list])
            && (!added ==> sys.list == old(sys.list) && sys.storage.slots == old(sys.storage.slots))
  {
    var v := ValidateSubmission(rawName, amount, expectedReturn, now);
    added := v.Some?;
    if added {
      sys.Add(v.value);
    }
  }

  /** The seed button: two examples appended in order, raising the totals
      by 15000 and 17600 (so from an empty ledger the totals are exactly
      those). */
  method Seed(sys: InvestmentSystem, now: string)
    modifies sys, sys.storage
    ensures sys.list == old(sys.list) + [NewInvestment("Fundo Alpha", 10000.0, 12000.0, now),
                                         NewInvestment("Tesouro", 5000.0, 5600.0, now)]
    ensures sys.storage.slots == old(sys.storage.slots)[sys.key := sys.list]
    ensures sys.Persisted()
    ensures sys.TotalInvested() == old(sys.TotalInvested()) + 15000.0
    ensures sys.TotalReturn() == old(sys.TotalReturn()) + 17600.0
  {
    sys.Add(NewInvestment("Fundo Alpha", 10000.0, 12000.0, now));
    sys.Add(NewInvestment("Tesouro", 5000.0, 5600.0, now));
  }

  /** Adding an entry and then removing index -1 (the last element, by
      splice's counting from the end) leaves the list and totals as they
      were. */
  method AddThenRemoveLast(sys: InvestmentSystem, inv: Investment)
    modifies sys, sys.storage
    ensures sys.list == old(sys.list)
    ensures sys.storage.slots == old(sys.storage.slots)[sys.key := old(sys.list)]
    ensures sys.TotalInvested() == old(sys.TotalInvested())
    ensures sys.TotalReturn() == old(sys.TotalReturn())
  {
    sys.Add(inv);
    sys.Remove(-1);
    SpliceMinusOneUndoesAppend(old(sys.list), inv);
  }
}
