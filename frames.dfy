/** Wire messages: an ordered list of string frames (a CZTop::Message). */
module Frames {
  import opened Outcomes

  type Message = seq<string>

  /** A message object that the code appends frames to and pops frames off in place.
      `<<` appends at the end; `pop` removes and returns the first frame, or nil when
      nothing is left. */
  class Msg {
    var frames: Message

    constructor (fs: Message)
      ensures frames == fs
    {
      frames := fs;
    }

    method Append(f: string)
      modifies this
      ensures frames == old(frames) + [f]
    {
      frames := frames + [f];
    }

    method Prepend(f: string)
      modifies this
      ensures frames == [f] + old(frames)
    {
      frames := [f] + frames;
    }

    method Pop() returns (f: Option<string>)
      modifies this
      ensures old(frames) == [] ==> f == None && frames == []
      ensures old(frames) != [] ==> f == Some(old(frames)[0]) && frames == old(frames)[1..]
    {
      if frames == [] {
        f := None;
      } else {
        f := Some(frames[0]);
        frames := frames[1..];
      }
    }
  }
}
