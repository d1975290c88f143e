/** The helpers module of the repository. Its parse_date, parse_datetime and
    Patient/Encounter from_row are the same code as the main script's and
    are modelled once, in Timestamps and Records. */
module Utils {

  /** hello_world */
  function HelloWorld(): (r: string)
    ensures r == "Hello, world!"
  {
    "Hello, world!"
  }
}
