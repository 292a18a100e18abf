/** Records shared by both trackers: the four running totals of a day and a weight observation. */
module Tracking {

  /** Energy in kcal and protein/carbs/fat in grams, as kept in a day log's totals. */
  datatype Macros = Macros(kcal: real, protein: real, carbs: real, fat: real) {

    /** Field-by-field sum: what a logged meal adds to the running totals. */
    function Plus(other: Macros): Macros {
      Macros(kcal + other.kcal, protein + other.protein, carbs + other.carbs, fat + other.fat)
    }
  }

  /** The totals of a day on which nothing has been logged yet. */
  const Zero := Macros(0.0, 0.0, 0.0, 0.0)

  /** One point of the weight series; `date` is the display label the clock produced. */
  datatype WeightEntry = WeightEntry(date: string, weight: real)
}
