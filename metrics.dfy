/** The figures the dashboard derives for each member card. */
module Metrics {
  import opened Domain

  /** Savings target: a fifth of the salary. */
  const SavingsTarget: real := 0.2

  /** `calculateBalance`: "not applicable" for a non-earning member (never zero),
      otherwise what the salary leaves after spending. */
  function Balance(m: Member): (r: Option<real>)
    ensures r.None? <==> !m.isEarning
    ensures r.Some? ==> r.value + m.totalSpent == m.salary
  {
    if !m.isEarning then None else Some(m.salary - m.totalSpent)
  }

  /** "Monthly Budget": exactly half the salary. */
  function Budget(m: Member): (r: real)
    ensures r + r == m.salary
  {
    m.salary * 0.5
  }

  /** The budget depends on the salary alone, not on spending or on the earning flag. */
  lemma BudgetDependsOnSalaryOnly(m: Member, n: Member)
    requires m.salary == n.salary
    ensures Budget(m) == Budget(n)
  {
  }

  /** Balance as a percentage of salary. */
  function SavingsPercent(balance: real, salary: real): (r: real)
    requires salary != 0.0
    ensures r * salary == balance * 100.0
  {
    balance / salary * 100.0
  }

  /** "Remaining": a colour flag (green when the balance is not negative) and a magnitude. */
  datatype RemainingView = Remaining(inCredit: bool, magnitude: real)

  /** The signed amount a `RemainingView` stands for. */
  function SignedAmount(v: RemainingView): real
  {
    if v.inCredit then v.magnitude else -v.magnitude
  }

  /** The "Remaining" line, shown for earning members only: `|balance|`, in
      green exactly when the balance is at least zero. */
  function RemainingLine(m: Member): (r: Option<RemainingView>)
    ensures r.None? <==> !m.isEarning
    ensures r.Some? ==> r.value.magnitude >= 0.0
    ensures r.Some? ==> (r.value.inCredit <==> Balance(m).value >= 0.0)
    ensures r.Some? ==> SignedAmount(r.value) == Balance(m).value
  {
    match Balance(m)
    case None => None
    case Some(b) => Some(Remaining(b >= 0.0, if b >= 0.0 then b else -b))
  }

  /** The "Monthly Savings" line. `percent` is `None` where the source divides
      zero by zero (an on-target member whose salary is zero). */
  datatype SavingsView = NotShown | BelowTarget | OnTarget(amount: real, percent: Option<real>)

  /** The savings verdict as the card renders it: nothing for a non-earning member;
      an amount and a percentage only when the balance reaches 20 % of the salary;
      otherwise the non-numeric "Below Target (20%)". */
  function Savings(m: Member): (r: SavingsView)
    ensures r.NotShown? <==> !m.isEarning
    ensures m.isEarning ==> (r.OnTarget? <==> m.salary - m.totalSpent >= m.salary * SavingsTarget)
    ensures r.OnTarget? ==> Balance(m) == Some(r.amount)
    ensures r.OnTarget? ==> (r.percent.Some? <==> m.salary != 0.0)
    ensures r.OnTarget? && r.percent.Some? ==> r.percent.value * m.salary == r.amount * 100.0
  {
    match Balance(m)
    case None => NotShown
    case Some(b) =>
      if b >= m.salary * SavingsTarget then
        OnTarget(b, if m.salary == 0.0 then None else Some(SavingsPercent(b, m.salary)))
      else
        BelowTarget
  }

  /** For a positive salary, the verdict is "on target" exactly when the
      percentage the card would print is at least 20. */
  lemma {:induction false} OnTargetIffTwentyPercent(m: Member)
    requires m.isEarning && m.salary > 0.0
    ensures Savings(m).OnTarget? <==> SavingsPercent(Balance(m).value, m.salary) >= 20.0
  {
    var b, s := Balance(m).value, m.salary;
    var p := SavingsPercent(b, s);
    assert p * s == b * 100.0;
    assert b == s - m.totalSpent;
    if p >= 20.0 {
      assert (p - 20.0) * s >= 0.0;
      assert b * 100.0 >= s * 20.0;
      assert b >= s * SavingsTarget;
    } else {
      assert (20.0 - p) * s > 0.0;
      assert b * 100.0 < s * 20.0;
      assert b < s * SavingsTarget;
    }
  }

  /** As written, an earning member with a zero salary and nothing spent is
      "on target" with an undefined percentage (0/0). */
  lemma ZeroSalaryOnTargetHasNoPercent(m: Member)
    requires m.isEarning && m.salary == 0.0 && m.totalSpent == 0.0
    ensures Savings(m) == OnTarget(0.0, None)
  {
  }

  /** The savings verdict with the zero-salary case treated as "below target". */
  function GuardedSavings(m: Member): (r: SavingsView)
    ensures r.NotShown? <==> !m.isEarning
    ensures r.OnTarget? ==> m.salary != 0.0 && r.percent.Some?
    ensures m.salary != 0.0 ==> r == Savings(m)
    ensures m.isEarning && m.salary == 0.0 ==> r == BelowTarget
  {
    if m.isEarning && m.salary == 0.0 then BelowTarget else Savings(m)
  }
}
