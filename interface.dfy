/**
 * The buttons of layers/interface.py, as the callbacks build them and the senders
 * read them. The callbacks name the second field `command` and the senders read
 * it as `payload`; here one field stands for both. The two shared buttons of the
 * `buttons` module are fixed buttons whose text and payload are not part of this
 * model.
 */
module Interface {

  /** `PostbackButton(text, command)`: a button that sends `payload` back when pressed. */
  datatype Button = PostbackButton(text: string, payload: string)

  /** `buttons.trending`. */
  const TrendingButton: Button

  /** `buttons.new_balloon`. */
  const NewBalloonButton: Button
}
