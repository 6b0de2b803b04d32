/** The spot details page: the duration menu, the selected duration and the price for it. */
module SpotDetails {
  import AppContext

  /** The hours offered, in menu order. */
  const Durations: seq<nat> := [1, 2, 3, 4, 6, 8]

  /** The duration selected when the page opens. */
  const InitialDuration: nat := 2

  /** `totalPrice`: the hourly price times the hours. */
  function TotalPrice(spot: AppContext.ParkingSpot, duration: nat): real {
    spot.price * duration as real
  }

  /** The unit shown after a duration on its menu button. */
  function HourLabel(duration: nat): string {
    if duration == 1 then "Hour" else "Hours"
  }

  /**
   * One hour costs the hourly price, the price is additive in the hours, and
   * with a non-negative hourly price a longer stay never costs less.
   */
  lemma TotalPriceSpec(spot: AppContext.ParkingSpot, a: nat, b: nat)
    ensures TotalPrice(spot, 1) == spot.price
    ensures TotalPrice(spot, a + b) == TotalPrice(spot, a) + TotalPrice(spot, b)
    ensures spot.price >= 0.0 && a <= b ==> TotalPrice(spot, a) <= TotalPrice(spot, b)
  {
    if spot.price >= 0.0 && a <= b {
      assert TotalPrice(spot, b) - TotalPrice(spot, a) == spot.price * (b - a) as real;
    }
  }

  /** The singular is used exactly for one hour. */
  lemma HourLabelSpec(duration: nat)
    ensures HourLabel(duration) == "Hour" <==> duration == 1
    ensures HourLabel(duration) == "Hours" <==> duration != 1
  {
  }

  /** The `selectedDuration` state cell, set by the menu buttons. */
  class DurationPicker {
    var selectedDuration: nat

    /** The selection is a menu entry. */
    predicate Valid()
      reads this
    {
      selectedDuration in Durations
    }

    constructor ()
      ensures Valid() && selectedDuration == InitialDuration
    {
      selectedDuration := InitialDuration;
    }

    /** A click on menu button `k`. */
    method Select(k: nat)
      requires k < |Durations|
      modifies this
      ensures Valid() && selectedDuration == Durations[k]
    {
      selectedDuration := Durations[k];
    }

    /** The price shown for the current selection. */
    function Total(spot: AppContext.ParkingSpot): real
      reads this
    {
      TotalPrice(spot, selectedDuration)
    }
  }
}
