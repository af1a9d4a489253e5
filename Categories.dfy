/** The three image categories of the load tests, indexed 0, 1, 2. */
module Categories {

  /** Number of categories: the quota list is `[small, medium, large]`. */
  const Count: nat := 3

  /** The index map shared by the two load generators. */
  function Name(i: nat): string
    requires i < Count
  {
    if i == 0 then "small" else if i == 1 then "medium" else "large"
  }
}
