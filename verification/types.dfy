/** The records of lib/types.ts and the optional-value wrapper the model uses
    for absent values. */
module Types {

  datatype Option<+T> = None | Some(value: T)
  {
    function GetOr(default: T): T
    {
      match this
      case Some(v) => v
      case None => default
    }
  }

  /** The six item categories. */
  datatype Category = Clothing | Toiletries | Electronics | Documents | Accessories | Other

  /** A number read from a form field with `parseInt`: an integer or NaN. */
  datatype Num = NaN | Int(value: int)

  /** The trip as submitted. Season, climate and accommodation are the strings the
      code compares against; values outside the form's choices simply match nothing. */
  datatype TripDetails = TripDetails(
    destination: string,
    duration: int,
    season: string,
    climate: string,
    activities: seq<string>,
    accommodation: string,
    groupSize: Num,
    includesChildren: bool,
    specialNeeds: seq<string>)

  /** One entry of a packing list; `notes` is optional. */
  datatype PackingItem = PackingItem(
    id: string,
    name: string,
    category: Category,
    essential: bool,
    quantity: int,
    notes: Option<string>)
}
