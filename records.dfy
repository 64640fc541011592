/** The record shapes the client receives from the API (src/types/index.ts).
    Timestamps stay the strings the API sends; optional fields are `Option`s. */
module Records {
  import opened Wrappers

  datatype User = User(
    id: string,
    username: string,
    email: string,
    img: Option<string>,
    country: string,
    phone: Option<string>,
    desc: Option<string>,
    isSeller: bool,
    createdAt: string,
    updatedAt: string)

  datatype Gig = Gig(
    id: string,
    title: string,
    desc: string,
    totalStars: int,
    starNumber: int,
    price: int,
    cover: string,
    images: Option<seq<string>>,
    category: string,
    userId: string,
    shortTitle: string,
    shortDesc: string,
    deliveryTime: int,
    revisionNumber: int,
    features: Option<seq<string>>,
    sales: int,
    createdAt: string,
    updatedAt: string)

  datatype Order = Order(
    id: string,
    gigId: string,
    img: string,
    title: string,
    price: int,
    sellerId: string,
    buyerId: string,
    isCompleted: bool,
    paymentIntent: string,
    createdAt: string,
    updatedAt: string)

  datatype Message = Message(
    id: string,
    conversationId: string,
    userId: string,
    desc: string,
    createdAt: string,
    updatedAt: string)

  datatype Conversation = Conversation(
    id: string,
    readBySeller: bool,
    readByBuyer: bool,
    lastMessage: Option<string>,
    sellerId: string,
    buyerId: string,
    createdAt: string,
    updatedAt: string)

  /** `x === currentUser?._id`: never true when nobody is signed in. */
  predicate IsCurrentUser(id: string, me: Option<User>)
  {
    me.Some? && me.value.id == id
  }
}
