/**
 * Absolute pushes of amounts that need not lie on the tenths grid: the snapshot takes the
 * amount as it is, and the ledger takes the difference rounded to tenths.
 */
module RoundingDrift {
  import opened DayArithmetic

  /** The snapshot balance in days, and the sum of the ledger's deltas in tenths. */
  datatype Books = Books(balanceDays: real, ledgerUnits: int)

  function PushDays(books: Books, absoluteDays: real): Books {
    var deltaUnits := Round((absoluteDays - books.balanceDays) * SCALE);
    Books(absoluteDays, books.ledgerUnits + deltaUnits)
  }

  function PushAll(books: Books, amounts: seq<real>): Books {
    if amounts == [] then
      books
    else
      PushDays(PushAll(books, amounts[..|amounts| - 1]), amounts[|amounts| - 1])
  }

  /** By how many tenths the ledger is ahead of the snapshot. */
  function Drift(books: Books): real {
    books.ledgerUnits as real - books.balanceDays * SCALE
  }

  /** One push moves the drift by its rounding error, at most half a tenth. */
  lemma PushMovesDrift(books: Books, absoluteDays: real)
    ensures -0.5 < Drift(PushDays(books, absoluteDays)) - Drift(books) <= 0.5
  {
    RoundError((absoluteDays - books.balanceDays) * SCALE);
  }

  /** n pushes move the drift by at most n halves of a tenth. */
  lemma {:induction false} DriftIsBounded(books: Books, amounts: seq<real>)
    requires Drift(books) == 0.0
    ensures -(|amounts| as real) / 2.0 <= Drift(PushAll(books, amounts)) <= |amounts| as real / 2.0
  {
    if amounts != [] {
      var init := amounts[..|amounts| - 1];
      DriftIsBounded(books, init);
      PushMovesDrift(PushAll(books, init), amounts[|amounts| - 1]);
    }
  }

  predicate OnGrid(days: real) {
    Round(days * SCALE) as real == days * SCALE
  }

  /** From agreement, pushes on the grid keep the ledger equal to the snapshot. */
  lemma {:induction false} NoDriftOnGrid(books: Books, amounts: seq<real>)
    requires Drift(books) == 0.0
    requires forall n | 0 <= n < |amounts| :: OnGrid(amounts[n])
    ensures Drift(PushAll(books, amounts)) == 0.0
  {
    if amounts != [] {
      var init, last := amounts[..|amounts| - 1], amounts[|amounts| - 1];
      NoDriftOnGrid(books, init);
      var before := PushAll(books, init);
      var whole := Round(last * SCALE) - before.ledgerUnits;
      assert (last - before.balanceDays) * SCALE == whole as real;
      assert Round(whole as real) == whole;
    }
  }

  /** 0.05, 0.10, 0.15, ... days. */
  function HalfTenths(n: nat): (amounts: seq<real>)
    ensures |amounts| == n
  {
    seq(n, i requires 0 <= i < n => (i + 1) as real * 0.05)
  }

  /** The bound is attained: every one of these pushes rounds half a tenth up. */
  lemma {:induction false} DriftIsAttained(n: nat)
    ensures var books := PushAll(Books(0.0, 0), HalfTenths(n));
            books.ledgerUnits == n && Drift(books) == n as real / 2.0
  {
    if n > 0 {
      DriftIsAttained(n - 1);
      assert HalfTenths(n)[..n - 1] == HalfTenths(n - 1);
      var before := PushAll(Books(0.0, 0), HalfTenths(n - 1));
      assert before.balanceDays == (n - 1) as real * 0.05;
      assert (HalfTenths(n)[n - 1] - before.balanceDays) * SCALE == 0.5;
    }
  }
}
