/** The records the pages fetch, the requests they send, and the JavaScript
    rules the handlers rely on for record ids. Timestamps, dates and prices are
    integers; formatting them for display is not modelled. */
module Records {
  import opened Collections

  /** A stored image as the API returns it (`profileImage`, `menu_img`). */
  datatype Image = Image(filepath: string, filename: string)

  /** A file chosen in a browser file input; its contents are opaque. */
  datatype Upload = Upload(name: string)

  /** An account from `/api/users`. */
  datatype User = User(
    id: string,
    fullname: string,
    email: string,
    password: string,
    date: int,
    isAdmin: bool,
    isManager: bool,
    profileImage: Option<Image>)

  /** A menu from `/api/menus`; also the catalog a transaction's items pick from. */
  datatype Menu = Menu(id: string, menuName: string, menuDesc: string, menuPrice: int, menuStock: int)

  /** A review from `/api/reviews`; the account and menu references are given by their ids. */
  datatype Review = Review(id: string, accountId: string, menuId: string, reviewRate: int, reviewDesc: string)

  /** The request one handler sends: `axios.post(url, body)`, `axios.put(url, body)`
      or `axios.delete(url, { data: body })`. */
  datatype Request<B> = Post(url: string, body: B) | Put(url: string, body: B) | Delete(url: string, body: B)

  /** `if (formData.id)`: a draft id selects the update path only when it is
      present and not the empty string (JavaScript truthiness). */
  function IdIsSet(id: Option<string>): (r: bool)
    ensures r ==> id.Some?
    ensures id.Some? ==> (r <==> |id.value| > 0)
  {
    id.Some? && id.value != ""
  }

  /** `${formData.id}` in a template literal: a missing id prints as "null". */
  function IdText(id: Option<string>): (r: string)
    ensures id.Some? ==> r == id.value
    ensures id.None? ==> r == "null"
  {
    match id
    case Some(s) => s
    case None => "null"
  }
}
