/** Raw RGB frames (src/fh_agent/perception/screen_capture.py). */
module ScreenFrames {
  import opened Prelude

  datatype Frame = Frame(width: nat, height: nat, rgb: seq<byte>) {
    /** What `ScreenFrame.__post_init__` admits. */
    predicate Valid() {
      width > 0 && height > 0 && |rgb| == width * height * 3
    }
  }
}
