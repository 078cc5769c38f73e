/**
 Files that are uploaded in parts: the number of parts (NumberOfMultiparts of
 src/filecache.c), the size of each (CreateFilePart of src/downloadqueue.c), and
 the copy of one part (CreateFileChunk of src/grant.c).
 */
module Multipart {
  const CHUNK_SIZE: nat := 26214400         // 25 megabytes
  const MAXIMUM_MULTIPARTS: nat := 10000
  const COPY_CHUNK_SIZE: nat := 262144

  /** As many parts as it takes, but not more than 10,000. */
  function NumberOfMultiparts(filesize: nat): (parts: nat)
    ensures filesize <= CHUNK_SIZE * MAXIMUM_MULTIPARTS ==>
              parts <= MAXIMUM_MULTIPARTS && CHUNK_SIZE * parts >= filesize && CHUNK_SIZE * parts < filesize + CHUNK_SIZE
    ensures filesize > CHUNK_SIZE * MAXIMUM_MULTIPARTS ==> parts == MAXIMUM_MULTIPARTS
  {
    if filesize <= CHUNK_SIZE * MAXIMUM_MULTIPARTS then (filesize + CHUNK_SIZE - 1) / CHUNK_SIZE
    else MAXIMUM_MULTIPARTS
  }

  /** The size that CreateFilePart announces for a part. */
  function PartSize(part: int, filesize: nat): nat {
    if part == NumberOfMultiparts(filesize) then filesize % CHUNK_SIZE else CHUNK_SIZE
  }

  function Min(a: int, b: int): int {
    if a < b then a else b
  }

  /** The bytes of a file from one position to another, as far as the file has them. */
  function Bytes<T>(file: seq<T>, from: nat, to: nat): (b: seq<T>)
    requires from <= to
    ensures to <= |file| ==> |b| == to - from
  {
    file[Min(from, |file|)..Min(to, |file|)]
  }

  /** What is copied for a part: nothing for a part number out of range. */
  function PartOf<T>(file: seq<T>, part: int): seq<T> {
    if part < 1 || MAXIMUM_MULTIPARTS < part then []
    else Bytes(file, (part - 1) * CHUNK_SIZE, (part - 1) * CHUNK_SIZE + PartSize(part, |file|))
  }

  /** pread that returns all bytes there are; -1 is an error. */
  method Pread<T>(file: seq<T>, count: nat, offset: int) returns (nBytes: int, bytes: seq<T>)
    ensures offset < 0 ==> nBytes == -1 && bytes == []
    ensures offset >= 0 ==> nBytes == |bytes| && bytes == Bytes(file, offset, offset + count)
  {
    if offset < 0 {
      nBytes, bytes := -1, [];
    } else {
      bytes := Bytes(file, offset, offset + count);
      nBytes := |bytes|;
    }
  }

  /** CreateFileChunk, without the names of its files. */
  method CreateFileChunk<T>(file: seq<T>, part: int) returns (dest: seq<T>)
    ensures dest == PartOf(file, part)
  {
    if part < 0 || 10000 < part {
      return [];
    }
    var partSize := CHUNK_SIZE;
    var filesize := |file|;
    var parts := NumberOfMultiparts(filesize);
    if part == parts {
      partSize := filesize % partSize;
    }
    if 1 <= part { PartFits(part, filesize); }
    dest := CopySmallChunks(file, (part - 1) * CHUNK_SIZE, partSize);
  }

  /** A part lies in the file, or behind its end. */
  lemma PartFits(part: int, filesize: nat)
    requires 1 <= part <= MAXIMUM_MULTIPARTS
    ensures part <= NumberOfMultiparts(filesize) ==> (part - 1) * CHUNK_SIZE + PartSize(part, filesize) <= filesize
    ensures part > NumberOfMultiparts(filesize) ==> filesize <= (part - 1) * CHUNK_SIZE
  {
    var n := NumberOfMultiparts(filesize);
    if part == n {
      assert filesize % CHUNK_SIZE + (part - 1) * CHUNK_SIZE <= filesize by { LastPartFits(filesize); }
    }
  }

  lemma LastPartFits(filesize: nat)
    requires 1 <= NumberOfMultiparts(filesize)
    ensures (NumberOfMultiparts(filesize) - 1) * CHUNK_SIZE + filesize % CHUNK_SIZE <= filesize
  {
    var q := filesize / CHUNK_SIZE;
    assert filesize == CHUNK_SIZE * q + filesize % CHUNK_SIZE;
  }

  /** The copy loop writes exactly the bytes of the part, if the reads return all that they ask for. */
  method CopySmallChunks<T>(file: seq<T>, offset: int, partSize: nat) returns (dest: seq<T>)
    requires offset < 0 || |file| <= offset || offset + partSize <= |file|
    ensures dest == if offset < 0 then [] else Bytes(file, offset, offset + partSize)
  {
    dest := [];
    var index := 0;
    var bytesCopied := 0;
    var more := true;
    while more
      invariant 0 <= index && bytesCopied == |dest|
      invariant more ==> bytesCopied == index * COPY_CHUNK_SIZE && (index == 0 || bytesCopied < partSize)
      invariant more && offset >= 0 ==> bytesCopied <= partSize && dest == Bytes(file, offset, offset + bytesCopied)
      invariant more && offset < 0 ==> index == 0
      invariant !more ==> dest == if offset < 0 then [] else Bytes(file, offset, offset + partSize)
      decreases if more then 1 + partSize - bytesCopied else 0
    {
      var chunkSize := COPY_CHUNK_SIZE;
      var relativeOffset := index * chunkSize;
      if chunkSize + relativeOffset > partSize {
        chunkSize := partSize - relativeOffset;
      }
      if offset >= 0 {
        BytesGrow(file, offset, bytesCopied, chunkSize);
        ReadsAll(file, offset, bytesCopied, chunkSize);
        ReadsAll(file, offset, partSize, 0);
      }
      hide Bytes;
      var nBytes, chunk := Pread(file, chunkSize, offset + relativeOffset);
      if 0 < nBytes {
        dest := dest + chunk;
        bytesCopied := bytesCopied + nBytes;
      }
      index := index + 1;
      more := 0 < nBytes && bytesCopied < partSize;
    }
  }

  lemma BytesGrow<T>(file: seq<T>, offset: nat, n: nat, k: nat)
    ensures Bytes(file, offset, offset + n) + Bytes(file, offset + n, offset + n + k) == Bytes(file, offset, offset + n + k)
  {
  }

  /** A read gets all that it asks for, or nothing. */
  lemma ReadsAll<T>(file: seq<T>, offset: nat, n: nat, k: nat)
    ensures offset + n + k <= |file| ==> |Bytes(file, offset + n, offset + n + k)| == k
    ensures |file| <= offset ==> Bytes(file, offset, offset + n) == [] && Bytes(file, offset + n, offset + n + k) == []
  {
  }

  // ----- Reassembly -----

  /** What the parts of a file of this size hold together. */
  function Kept(filesize: nat): nat {
    if filesize == 0 then 0 else (NumberOfMultiparts(filesize) - 1) * CHUNK_SIZE + filesize % CHUNK_SIZE
  }

  /** The parts hold the whole file if and only if it is empty, or has an incomplete last chunk and at most 10,000 chunks. */
  lemma KeptIsAll(filesize: nat)
    ensures Kept(filesize) <= filesize
    ensures Kept(filesize) == filesize <==>
            filesize == 0 || (filesize % CHUNK_SIZE != 0 && filesize <= CHUNK_SIZE * MAXIMUM_MULTIPARTS)
    ensures 0 < filesize <= CHUNK_SIZE * MAXIMUM_MULTIPARTS && filesize % CHUNK_SIZE == 0 ==>
              Kept(filesize) == filesize - CHUNK_SIZE
  {
    var q, r := filesize / CHUNK_SIZE, filesize % CHUNK_SIZE;
    assert filesize == CHUNK_SIZE * q + r;
  }

  function SumOfSizes(filesize: nat, parts: nat): nat {
    if parts == 0 then 0 else SumOfSizes(filesize, parts - 1) + PartSize(parts, filesize)
  }

  /** The announced sizes add up to what the parts hold. */
  lemma SizesAddUp(filesize: nat)
    ensures SumOfSizes(filesize, NumberOfMultiparts(filesize)) == Kept(filesize)
  {
    if 0 < filesize { SizesBefore(filesize, NumberOfMultiparts(filesize) - 1); }
  }

  lemma {:induction false} SizesBefore(filesize: nat, parts: nat)
    requires parts < NumberOfMultiparts(filesize)
    ensures SumOfSizes(filesize, parts) == parts * CHUNK_SIZE
  {
    if 0 < parts { SizesBefore(filesize, parts - 1); }
  }

  /** For a part of the file, as many bytes are copied as are announced. */
  lemma AnnouncedIsCopied<T>(file: seq<T>, part: int)
    requires 1 <= part <= NumberOfMultiparts(|file|)
    ensures |PartOf(file, part)| == PartSize(part, |file|)
  {
    PartFits(part, |file|);
  }

  /** The copies of all parts, one after the other, are the beginning of the file; when it is all of it, see KeptIsAll. */
  method Reassemble<T(==)>(file: seq<T>) returns (copy: seq<T>)
    ensures Kept(|file|) <= |file| && copy == file[..Kept(|file|)]
    ensures copy == file <==>
            file == [] || (|file| % CHUNK_SIZE != 0 && |file| <= CHUNK_SIZE * MAXIMUM_MULTIPARTS)
  {
    copy := [];
    var parts := NumberOfMultiparts(|file|);
    KeptIsAll(|file|);
    var part := 1;
    while part <= parts
      invariant 1 <= part <= parts + 1
      invariant part <= parts ==> (part - 1) * CHUNK_SIZE <= |file| && copy == file[..(part - 1) * CHUNK_SIZE]
      invariant part > parts ==> copy == file[..Kept(|file|)]
    {
      PartFits(part, |file|);
      var chunk := CreateFileChunk(file, part);
      copy := copy + chunk;
      part := part + 1;
    }
  }
}
