/** What one append can do to a log whose last line may be torn, seen from what the log replays to. */
module LogTail {

  /**
   * `Clean`: every line is complete and decodes. `Torn`: the last line has no line break. `Glued`: the last line is
   * complete and does not decode. `Unreadable`: replay fails.
   */
  datatype Tail = Clean | Torn | Glued | Unreadable

  /** How far the text of one appended line got. The last two are for lines that hold a line break inside. */
  datatype Cut = Nothing | Part | WholeLine | Complete | AtBreak | PastBreak

  /** A log: its tail, what it replays to now, and what it would replay to without its torn last line. */
  datatype View<T> = View(tail: Tail, disk: T, kept: T)

  /** `saved` is what a complete append on a clean tail would make it replay to. */
  function AfterAppend<T>(v: View<T>, saved: T, cut: Cut): View<T> {
    if cut.Nothing? then v
    else
      match v.tail
      case Clean =>
        (match cut
         case Complete => View(Clean, saved, saved)
         case WholeLine => View(Torn, saved, v.kept)
         case Part => View(Torn, v.disk, v.kept)
         case AtBreak => View(Glued, v.disk, v.kept)
         case _ => View(Unreadable, v.kept, v.kept))
      case Torn =>
        (match cut
         case Part => View(Torn, v.kept, v.kept)
         case WholeLine => View(Torn, v.kept, v.kept)
         case Complete => View(Glued, v.kept, v.kept)
         case AtBreak => View(Glued, v.kept, v.kept)
         case _ => View(Unreadable, v.kept, v.kept))
      case Glued => View(Unreadable, v.kept, v.kept)
      case Unreadable => v
  }

  /** The append does no harm: it adds nothing, or it starts its own line and holds no line break inside. */
  predicate Harmless<T>(v: View<T>, cut: Cut) {
    cut.Nothing? || (v.tail.Clean? && !cut.AtBreak? && !cut.PastBreak?)
  }

  /** The append itself is what the log now replays to. */
  predicate Lands<T>(v: View<T>, cut: Cut) {
    v.tail.Clean? && (cut.Complete? || cut.WholeLine?)
  }

  /** The partial last line is removed, or a complete one gets its line break: what the log replays to stays. */
  function Mended<T>(v: View<T>): View<T> {
    View(Clean, v.disk, v.disk)
  }
}
