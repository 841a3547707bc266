/** The home screen's view model: the monthly and yearly totals, loaded when
    the view model is built and again after each delete. The three listing
    flows it exposes are the repository's query functions themselves. */
module Home {
  import opened Entity
  import opened Dao
  import opened Repository

  datatype HomeUiState = HomeUiState(monthlyTotal: real, yearlyTotal: real, isLoading: bool)

  /** Both totals 0.0 and a loading indicator, until the first load completes. */
  const InitialUiState: HomeUiState := HomeUiState(0.0, 0.0, true)

  /** The total the home screen shows for `cycle` (the DAO's SUM with null
      read as 0.0) is the sum over the listing it shows for that cycle. */
  lemma TotalMatchesListing(t: Table, cycle: PaymentCycle)
    ensures Dao.GetTotalAmountByCycle(t, cycle).GetOr(0.0) == CycleSum(t, cycle)
    ensures CycleSum(t, cycle) == SumOf(Dao.GetSubscriptionsByCycle(t, cycle))
  {
    SumAmountsIsSumOfScan(Where(t, ActiveWithCycle(cycle)));
  }

  /** What a completed `loadTotals` shows for table `t`: the repository's
      monthly and yearly totals, loading finished. */
  function Totals(t: Table): (s: HomeUiState)
    ensures !s.isLoading
    ensures s.monthlyTotal == CycleSum(t, Monthly) && s.yearlyTotal == CycleSum(t, Yearly)
  {
    TotalMatchesListing(t, Monthly);
    TotalMatchesListing(t, Yearly);
    HomeUiState(Dao.GetTotalAmountByCycle(t, Monthly).GetOr(0.0),
                Dao.GetTotalAmountByCycle(t, Yearly).GetOr(0.0), false)
  }

  /** Each total shown is the sum over the listing shown for its cycle. */
  lemma TotalsMatchListings(t: Table)
    ensures Totals(t).monthlyTotal == SumOf(Dao.GetSubscriptionsByCycle(t, Monthly))
    ensures Totals(t).yearlyTotal == SumOf(Dao.GetSubscriptionsByCycle(t, Yearly))
  {
    TotalMatchesListing(t, Monthly);
    TotalMatchesListing(t, Yearly);
  }

  /** After a hard delete of row `id`, each total is the old one less what
      that row contributed to it; an inactive or missing row changes nothing. */
  lemma DeleteLowersTotals(t: Table, id: int)
    ensures Totals(Deleted(t, id)) ==
      HomeUiState(Totals(t).monthlyTotal - Contribution(t, id, Monthly),
                  Totals(t).yearlyTotal - Contribution(t, id, Yearly), false)
    ensures id !in t || !t[id].isActive ==> Totals(Deleted(t, id)) == Totals(t)
  {
    var before, after := Totals(t), Totals(Deleted(t, id));
    DeleteTotal(t, id, Monthly);
    DeleteTotal(t, id, Yearly);
    assert after.monthlyTotal == before.monthlyTotal - Contribution(t, id, Monthly);
    assert after.yearlyTotal == before.yearlyTotal - Contribution(t, id, Yearly);
  }

  class HomeViewModel {
    var uiState: HomeUiState
    const repository: SubscriptionRepository

    ghost predicate Valid()
      reads this, repository.dao
    {
      repository.dao.Valid()
    }

    /** The view model starts from the initial state and runs `loadTotals`. */
    constructor (repository: SubscriptionRepository)
      requires repository.dao.Valid()
      ensures Valid() && this.repository == repository
      ensures uiState == Totals(repository.dao.rows)
    {
      this.repository := repository;
      uiState := InitialUiState;
      new;
      LoadTotals();
    }

    /** `loadTotals`: both totals from the repository, loading finished. */
    method LoadTotals()
      requires Valid()
      modifies this
      ensures Valid()
      ensures uiState == HomeUiState(repository.GetTotalAmountByCycle(Monthly),
                                     repository.GetTotalAmountByCycle(Yearly), false)
      ensures uiState == Totals(repository.dao.rows)
    {
      var monthlyTotal := repository.GetTotalAmountByCycle(Monthly);
      var yearlyTotal := repository.GetTotalAmountByCycle(Yearly);
      uiState := uiState.(monthlyTotal := monthlyTotal, yearlyTotal := yearlyTotal, isLoading := false);
    }

    /** `deleteSubscription`: a hard delete of the row with the primary key of
        `s`, then a reload (see `DeleteLowersTotals`). A storage fault ends the
        coroutine before the reload. */
    method DeleteSubscription(s: Subscription, fault: bool)
      requires Valid()
      modifies this, repository.dao
      ensures Valid()
      ensures repository.dao.nextId == old(repository.dao.nextId)
      ensures fault ==> repository.dao.rows == old(repository.dao.rows) && uiState == old(uiState)
      ensures !fault ==> repository.dao.rows == Deleted(old(repository.dao.rows), s.id)
      ensures !fault ==> s.id !in repository.dao.rows
      ensures !fault ==> uiState == Totals(Deleted(old(repository.dao.rows), s.id))
    {
      var deleted := repository.DeleteSubscription(s, fault);
      if deleted.Fail? {
        return;
      }
      LoadTotals();
    }
  }
}
