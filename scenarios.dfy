/**
 * Client code that uses only the specifications of Category's methods: the
 * scenarios a user of the budget app runs into, with the outcomes the
 * contracts guarantee.  Amounts are in cents.
 */
module Scenarios {
  import opened Ledger
  import opened Budget
  import opened SpendChart

  /** Deposit 1000.00, spend 10.15 on groceries: 989.85 is left. */
  method GroceriesLeaveBalance() {
    var food := new Category("Food");
    food.Deposit(100000, "initial deposit");
    var spent := food.Withdraw(1015, "groceries");
    assert spent;
    var balance := food.GetBalance();
    assert balance == 98985;
  }

  /** With 100.00 in the category, 100.00 is affordable and 100.01 is not. */
  method FundsCheckIsInclusive() {
    var food := new Category("Food");
    food.Deposit(10000);
    var exact := food.CheckFunds(10000);
    var over := food.CheckFunds(10001);
    assert exact && !over;
    var refused := food.Withdraw(10001, "too much");
    assert !refused && food.ledger == [Entry(10000, "")];
  }

  /** Moving 50.00 from Food to Clothing leaves 50.00 in each. */
  method TransferBetweenCategories() {
    var food := new Category("Food");
    var clothing := new Category("Clothing");
    food.Deposit(10000);
    var moved := food.Transfer(5000, clothing);
    assert moved;
    assert Balance(food.ledger) == 5000 && Balance(clothing.ledger) == 5000;
    assert food.ledger == [Entry(10000, ""), Entry(-5000, "Transfer to " + "Clothing")];
    assert clothing.ledger == [Entry(5000, "Transfer from " + "Food")];
  }

  /** A transfer of more than the balance writes nothing on either side. */
  method TransferBeyondBalance() {
    var food := new Category("Food");
    var clothing := new Category("Clothing");
    food.Deposit(5000);
    var moved := food.Transfer(5001, clothing);
    assert !moved;
    assert food.ledger == [Entry(5000, "")] && clothing.ledger == [];
  }

  /** A transfer to the same category writes both entries and keeps the balance. */
  method TransferToItself() {
    var auto := new Category("Auto");
    auto.Deposit(2000);
    var moved := auto.Transfer(500, auto);
    assert moved;
    assert Balance(auto.ledger) == 2000;
    assert auto.ledger == [Entry(2000, ""), Entry(-500, "Transfer to " + "Auto"), Entry(500, "Transfer from " + "Auto")];
  }

  /**
   * Three categories that withdrew 0, 15.00 and 35.00: of the 50.00 spent,
   * they get 0, 30 and 70 percent.
   */
  lemma ThreeCategoryPercentages()
    ensures IntSum([0, -1500, -3500]) == -5000
    ensures Percentages([0, -1500, -3500]) == [0, 30, 70]
  {
    var spends := [0, -1500, -3500];
    assert [0][..0] == [] && IntSum([0]) == 0;
    assert [0, -1500][..1] == [0] && IntSum([0, -1500]) == -1500;
    assert spends[..2] == [0, -1500] && IntSum(spends) == -5000;
  }
}
