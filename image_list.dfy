/** The bounded image lists of the claim modal (3 proof images), the claim page
    (5 supporting images) and the post form (3 photos). Adding appends one of the
    demo images while the list is below its bound; removing is
    `list.filter((_, i) => i !== index)`. */
module ImageList {

  /** `if (list.length < limit) setList([...list, image])`. */
  function Add(list: seq<string>, limit: nat, image: string): (r: seq<string>)
    ensures |list| < limit ==> r == list + [image]
    ensures |list| >= limit ==> r == list
    ensures |list| <= limit ==> |r| <= limit
  {
    if |list| < limit then list + [image] else list
  }

  /** Drops exactly position `index` and keeps the others in order; an index
      outside the list drops nothing. */
  function RemoveAt(list: seq<string>, index: int): (r: seq<string>)
    ensures 0 <= index < |list| ==> r == list[..index] + list[index + 1..]
    ensures !(0 <= index < |list|) ==> r == list
    decreases |list|
  {
    if list == [] then []
    else (if index == 0 then [] else [list[0]]) + RemoveAt(list[1..], index - 1)
  }
}
