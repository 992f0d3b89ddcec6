/** The folder-ownership server action of lib/actions/tools.ts. */
module ToolActions {
  import opened Wrappers

  datatype Ownership = Ownership(valid: bool, error: Option<string>)

  /** The ownership service behind the action, whose answer the editor cannot see. */
  type OwnershipService = seq<string> -> Ownership

  const NoFoldersSelected := "No folders selected"

  /** An empty selection is refused before the service is asked; any other answer is the service's. */
  function ValidateFolderOwnership(service: OwnershipService, folderIds: seq<string>): (r: Ownership)
    ensures folderIds == [] ==> !r.valid && r.error == Some(NoFoldersSelected)
    ensures folderIds != [] ==> r == service(folderIds)
  {
    if |folderIds| == 0 then Ownership(false, Some(NoFoldersSelected)) else service(folderIds)
  }
}
