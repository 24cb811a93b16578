/** The person records that the list endpoints embed in a row: a player,
    an expert or a sponsor. Every field is optional in the responses; an
    absent one is the empty string here, which is how the screens read
    them, through `|| ""` or a truthiness test. */
module People {

  datatype Contact = Contact(
    firstName: string,
    lastName: string,
    email: string,
    username: string,
    companyName: string)
}
