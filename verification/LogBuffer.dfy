/** adapters/log_buffer.go: the in-memory log of one job. Chunks go in and come out as copies, so
    nobody outside ever holds an array the buffer reads. */
module LogBuffer {
  newtype byte = x: int | 0 <= x < 256

  type Chunk = seq<byte>

  // What a reader gets who has already been sent skipCount chunks from elsewhere; the caller asks
  // for everything when skipCount is not positive.
  function AfterSkip(chunks: seq<Chunk>, skipCount: int): (r: seq<Chunk>)
    ensures |r| == if skipCount <= 0 then |chunks| else if skipCount >= |chunks| then 0 else |chunks| - skipCount
    ensures forall i :: 0 <= i < |r| ==> r[i] == chunks[i + if skipCount <= 0 then 0 else skipCount]
  {
    if skipCount <= 0 then chunks else if skipCount >= |chunks| then [] else chunks[skipCount..]
  }

  ghost predicate Holds(arrays: seq<array<byte>>, chunks: seq<Chunk>)
    reads arrays
  {
    |arrays| == |chunks| && forall i :: 0 <= i < |arrays| ==> arrays[i][..] == chunks[i]
  }

  method Copy(data: array<byte>) returns (chunk: array<byte>)
    ensures fresh(chunk) && chunk[..] == data[..]
  {
    chunk := new byte[data.Length];
    for i := 0 to data.Length
      invariant chunk[..i] == data[..i]
    {
      chunk[i] := data[i];
    }
  }

  method CopyAll(chunks: seq<array<byte>>, ghost contents: seq<Chunk>) returns (result: seq<array<byte>>)
    requires Holds(chunks, contents)
    ensures Holds(result, contents) && forall a :: a in result ==> fresh(a)
  {
    result := [];
    for i := 0 to |chunks|
      invariant |result| == i && forall a :: a in result ==> fresh(a)
      invariant forall j :: 0 <= j < i ==> result[j][..] == contents[j]
    {
      var chunk := Copy(chunks[i]);
      result := result + [chunk];
    }
  }

  class SimpleLogBuffer {
    var data: seq<array<byte>>
    ghost var contents: seq<Chunk>

    ghost predicate Valid()
      reads this, data
    {
      Holds(data, contents)
    }

    constructor ()
      ensures Valid() && contents == [] && data == []
    {
      data, contents := [], [];
    }

    method Write(chunk: array<byte>)
      requires Valid()
      modifies this
      ensures Valid() && contents == old(contents) + [chunk[..]]
      ensures |data| == |old(data)| + 1 && data[..|old(data)|] == old(data) && fresh(data[|old(data)|])
    {
      var copy := Copy(chunk);
      data := data + [copy];
      contents := contents + [chunk[..]];
    }

    method ReadAll() returns (result: seq<array<byte>>)
      requires Valid()
      ensures Holds(result, contents) && forall a :: a in result ==> fresh(a)
    {
      result := CopyAll(data, contents);
    }

    method ReadAfterSkip(skipCount: nat) returns (result: seq<array<byte>>)
      requires Valid()
      ensures Holds(result, AfterSkip(contents, skipCount)) && forall a :: a in result ==> fresh(a)
    {
      if skipCount >= |data| {
        return [];
      }
      result := CopyAll(data[skipCount..], AfterSkip(contents, skipCount));
    }
  }
}
