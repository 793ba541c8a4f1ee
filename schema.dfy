/** The rows of the two tables the repositories read and write
    (backend/src/models/Resource.ts and backend/src/models/Category.ts).
    Nullable columns are `Option`s. */
module Schema {
  import opened Wrappers

  datatype Status = Active | Inactive

  /** The text stored in the `status` column. */
  function StatusText(s: Status): string {
    match s
    case Active => "active"
    case Inactive => "inactive"
  }

  /** A row of `resources`. `tags` holds the JSON text of a list of strings,
      and the time stamps are SQLite's `YYYY-MM-DD HH:MM:SS` text. */
  datatype Resource = Resource(
    id: int,
    title: string,
    description: Option<string>,
    categoryId: Option<int>,
    fileType: Option<string>,
    fileSize: Option<int>,
    downloadUrl: string,
    downloadPassword: Option<string>,
    thumbnailUrl: Option<string>,
    downloadCount: int,
    tags: Option<string>,
    status: Status,
    createdAt: string,
    updatedAt: string)

  /** A row of `categories`. */
  datatype Category = Category(
    id: int,
    name: string,
    description: Option<string>,
    icon: Option<string>,
    sortOrder: int,
    status: Status,
    createdAt: string,
    updatedAt: string)
}
