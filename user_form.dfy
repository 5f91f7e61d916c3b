/** Logic the Customers and Users pages share: the three-way role read from the
    `isAdmin`/`isManager` flags, the flags a role radio choice sets, and which
    image part a submitted user form carries. */
module UserForm {
  import opened Collections
  import opened Records

  const AdminRole := "admin"
  const ManagerRole := "manager"
  const CustomerRole := "customer"

  /** `data.isAdmin ? "admin" : data.isManager ? "manager" : "customer"`. */
  function RoleOf(isAdmin: bool, isManager: bool): (r: string)
    ensures r == AdminRole <==> isAdmin
    ensures r == ManagerRole <==> !isAdmin && isManager
    ensures r == CustomerRole <==> !isAdmin && !isManager
  {
    if isAdmin then AdminRole else if isManager then ManagerRole else CustomerRole
  }

  /** The role column of a table row: the same priority, capitalised. */
  function RoleLabel(isAdmin: bool, isManager: bool): (r: string)
    ensures r == "Admin" <==> isAdmin
    ensures r == "Manager" <==> !isAdmin && isManager
    ensures r == "Customer" <==> !isAdmin && !isManager
  {
    if isAdmin then "Admin" else if isManager then "Manager" else "Customer"
  }

  /** The flags a role radio choice sets: `isAdmin: value === "admin", isManager: value === "manager"`. */
  datatype Flags = Flags(isAdmin: bool, isManager: bool)

  function FlagsFor(role: string): (f: Flags)
    ensures f.isAdmin <==> role == AdminRole
    ensures f.isManager <==> role == ManagerRole
    ensures !(f.isAdmin && f.isManager)
  {
    Flags(role == AdminRole, role == ManagerRole)
  }

  /** Choosing one of the three roles and reading the role back gives that role. */
  lemma RoleRoundTrip(role: string)
    requires role == AdminRole || role == ManagerRole || role == CustomerRole
    ensures RoleOf(FlagsFor(role).isAdmin, FlagsFor(role).isManager) == role
  {
  }

  /** Reading the role from flags that are not both set and choosing it again
      restores the flags; when both are set, admin wins and the manager flag is dropped. */
  lemma FlagsRoundTrip(isAdmin: bool, isManager: bool)
    ensures !(isAdmin && isManager) ==> FlagsFor(RoleOf(isAdmin, isManager)) == Flags(isAdmin, isManager)
    ensures isAdmin && isManager ==> FlagsFor(RoleOf(isAdmin, isManager)) == Flags(true, false)
  {
  }

  /** The image part of the multipart body a user form submits. */
  datatype ImagePart =
    | NewFile(file: Upload)          // `profileImage`: the file just chosen
    | ExistingPath(filepath: string) // `existingProfileImage`: the stored image's path
    | NoImage

  /** The new file if one was chosen, else the existing image's path, else neither. */
  function ImageChoice(profileImage: Option<Upload>, existing: Option<Image>): (r: ImagePart)
    ensures profileImage.Some? ==> r == NewFile(profileImage.value)
    ensures profileImage.None? && existing.Some? ==> r == ExistingPath(existing.value.filepath)
    ensures r == NoImage <==> profileImage.None? && existing.None?
  {
    match profileImage
    case Some(f) => NewFile(f)
    case None => if existing.Some? then ExistingPath(existing.value.filepath) else NoImage
  }
}
