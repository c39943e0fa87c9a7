/** The remote resources the repository layer reads and writes, reduced to
    the fields the layer itself uses. */
module Records {
  import opened Js

  /** A label as the label listing returns it; also the argument of
      `setLabel`, `updateLabel` and `removeIssueLabel`. Colour and description
      are forwarded as they are, so they may be `undefined` (a caller's object
      without them) or `null` (a label without a description). */
  datatype Label = Label(name: string, color: Value, description: Value)

  /** The argument of `renameLabel`: the current name to look up and the
      new name, colour and description, each forwarded as it is. */
  datatype LabelRename = LabelRename(oldname: Value, name: Value, color: Value, description: Value)

  /** An issue from the issue listing. `fullName` is the `full_name` the
      record carries, if any; `getComments` interpolates it into the path. */
  datatype Issue = Issue(number: nat, state: string, labels: seq<Label>, fullName: Option<string>)
}
