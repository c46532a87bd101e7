/** The browser objects the controller handles without looking inside them. */
module Browser {

  /** A file the user picked in the file input; only its identity matters. */
  datatype File = File(id: nat)

  /**
   * A `blob:` URL minted by `URL.createObjectURL` for one file. Every call mints
   * a new URL, so `serial` tells apart URLs minted for the same file.
   */
  datatype BlobUrl = BlobUrl(file: File, serial: nat)

  /**
   * The page's registry of object URLs. `created` lists the file behind every
   * URL minted so far; a URL stays live until it is revoked, and nothing in
   * the application ever revokes one.
   */
  class BlobStore {
    var created: seq<File>
    /** Every URL handed out so far. */
    ghost var minted: set<BlobUrl>

    /** Each URL handed out carries the serial of a registry entry. */
    ghost predicate Valid()
      reads this
    {
      forall u :: u in minted ==> u.serial < |created|
    }

    constructor ()
      ensures Valid()
      ensures created == [] && minted == {}
    {
      created := [];
      minted := {};
    }

    /** `URL.createObjectURL(file)`: mints a URL no earlier call returned. */
    method CreateObjectUrl(file: File) returns (url: BlobUrl)
      requires Valid()
      modifies this
      ensures Valid()
      ensures created == old(created) + [file]
      ensures url == BlobUrl(file, |old(created)|)
      ensures url !in old(minted) && minted == old(minted) + {url}
    {
      url := BlobUrl(file, |created|);
      created := created + [file];
      minted := minted + {url};
    }
  }
}
