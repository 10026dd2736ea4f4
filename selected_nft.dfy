/** The selected-token slice: the id of the token the interface shows in
    detail, or none. */
module SelectedNft {
  import opened Wrappers

  /** `NftTokenId`: a number or null. */
  type NftTokenId = Option<real>

  class SelectedNftStore {
    var id: NftTokenId

    constructor ()
      ensures id == None
    {
      id := None;
    }

    /** Sets the id, which may be null. */
    method SetSelectedNft(x: NftTokenId)
      modifies this
      ensures id == x
    {
      id := x;
    }

    method ClearSelectedNft()
      modifies this
      ensures id == None
    {
      id := None;
    }
  }
}
