/** The file a bundle is for: CreateBundle of src/bpm/runc/client/client.go. */
module Bundles {
  import opened JobId

  /** A file of the bundle directory; writing moves the offset, opening does not truncate. */
  class File {
    var content: Bytes
    var offset: nat

    ghost predicate Valid()
      reads this
    {
      offset <= |content|
    }

    /** os.OpenFile with O_RDWR and O_CREATE: an existing file keeps its content. */
    constructor Open(existing: Bytes)
      ensures Valid() && content == existing && offset == 0
    {
      content := existing;
      offset := 0;
    }

    method Write(data: Bytes)
      requires Valid()
      modifies this
      ensures Valid() && offset == old(offset) + |data|
      ensures content == old(content[..offset]) + data + Tail(old(content), old(offset) + |data|)
    {
      content := content[..offset] + data + Tail(content, offset + |data|);
      offset := offset + |data|;
    }
  }

  /** What of a file lies at or behind an offset. */
  function Tail(content: Bytes, offset: nat): Bytes {
    if offset <= |content| then content[offset..] else []
  }

  /** config.json after CreateBundle encoded a spec over whatever was there: the spec is read back
      exactly when the old file was not longer. */
  method CreateBundle(existing: Bytes, encodedSpec: Bytes) returns (config: Bytes)
    ensures encodedSpec <= config
    ensures config == encodedSpec <==> |existing| <= |encodedSpec|
    ensures |existing| > |encodedSpec| ==>
              |config| == |existing| && config[|encodedSpec|..] == existing[|encodedSpec|..]
  {
    var f := new File.Open(existing);
    f.Write(encodedSpec);
    config := f.content;
  }
}
