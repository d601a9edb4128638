/**
 * The identity card (MeView): the text that the user's QR code carries.
 * Rendering the text into an image is not part of this model.
 */
module MeView {

  /** The name field's initial value. */
  const DefaultName: string := "Anonymous"

  /** The email field's initial value. */
  const DefaultEmail: string := "you@yoursite.com"

  /** The QR payload built by `updateCode`: the name, a newline, then the email address. */
  function Payload(name: string, emailAddress: string): (r: string)
    ensures |r| == |name| + |emailAddress| + 1
    ensures r[..|name|] == name && r[|name|] == '\n' && r[|name| + 1..] == emailAddress
    ensures multiset(r)['\n'] == multiset(name)['\n'] + multiset(emailAddress)['\n'] + 1
  {
    assert name + "\n" + emailAddress == name + ("\n" + emailAddress);
    name + "\n" + emailAddress
  }

  /** The card shown before any edit carries "Anonymous", a newline, "you@yoursite.com". */
  lemma DefaultPayload()
    ensures Payload(DefaultName, DefaultEmail) == "Anonymous\nyou@yoursite.com"
  {
    assert DefaultName + "\n" + DefaultEmail == "Anonymous\nyou@yoursite.com";
    assert Payload(DefaultName, DefaultEmail) == DefaultName + "\n" + DefaultEmail;
  }
}
