/** Widgets abstracted to the properties the screens write: clickability and drawable. */
module Widgets {

  /** The drawables the screens put behind their buttons. */
  datatype Icon =
    | NextEnabled | NextDisabled
    | BackEnabled | BackDisabled
    | SpeakerDisabled | SpeakerEnabled | SpeakerActive

  /** Whether a drawable is one of the "enabled" pictures. */
  predicate IsEnabledIcon(icon: Icon) {
    icon in {NextEnabled, BackEnabled, SpeakerEnabled, SpeakerActive}
  }

  /** A clickable view together with its background drawable. */
  datatype Button = Button(clickable: bool, icon: Icon)

  /** The picture tells the truth: a clickable button shows an enabled drawable and vice versa. */
  predicate Agrees(b: Button) {
    b.clickable <==> IsEnabledIcon(b.icon)
  }
}
